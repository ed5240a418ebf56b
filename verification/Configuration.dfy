/** `ConfigureStep`, the last gate of a CartridgeConfig run, and what it means for the phase. */
module Configuration {
  import opened Basics
  import opened ClusterStatus
  import opened Steps
  import opened Verdicts

  /**
  What the step meets: whether reading the present configuration fails, whether the desired
  text cannot be parsed, whether the desired configuration is a subset of the present one,
  and whether applying it fails.
  */
  datatype Attempt = Attempt(readFails: bool, parseFails: bool, isSubset: bool, applyFails: bool)

  function Configure(a: Attempt): Verdict {
    if a.readFails then Error("unable to get config")
    else if a.parseFails then Error("unable to parse config")
    else if a.isSubset then COMPLETE
    else if a.applyFails then Error("unable to apply config")
    else NEXT_STEP
  }

  /** A failure is an error to try again, a configuration already in place ends the run for good. */
  lemma ConfigureByCase(a: Attempt)
    ensures Configure(a) == COMPLETE <==> !a.readFails && !a.parseFails && a.isSubset
    ensures Configure(a) == NEXT_STEP <==> !a.readFails && !a.parseFails && !a.isSubset && !a.applyFails
    ensures Configure(a).err.Some? <==> a.readFails || a.parseFails || (!a.isSubset && a.applyFails)
  {}

  /** The desired configuration was read, parsed, found to differ, and applied. */
  predicate Changes(a: Attempt) { !a.readFails && !a.parseFails && !a.isSubset && !a.applyFails }

  /** The position of the configure gate. */
  const CONFIGURE_GATE: nat := 9

  /** A run that came to the configure gate and met this attempt there. */
  ghost predicate ReachesConfigure(n: nat, answers: Answers, a: Attempt) {
    Executes(CONFIG_STEPS, n, answers) && n > CONFIGURE_GATE && answers(CONFIGURE_GATE).verdict == Configure(a)
  }

  lemma ConfigureGateStands()
    ensures |CONFIG_STEPS| == 12 && CONFIG_STEPS[8] == SetPhase(Applying)
            && CONFIG_STEPS[CONFIGURE_GATE] == Check(ConfigureCartridge)
    ensures CONFIG_STEPS[10] == SetPhase(Ready) && CONFIG_STEPS[11] == Info
  {}

  /** Past the gate nothing stops a run any more; stopped at the gate it executed no further step. */
  lemma ConfigureDecidesLength(n: nat, answers: Answers, a: Attempt)
    requires ReachesConfigure(n, answers, a)
    ensures n == if Changes(a) then 12 else 10
  {
    ConfigureGateStands();
    if Changes(a) {
      assert n < 12 ==> !Continues(VerdictOf(CONFIG_STEPS[n - 1], answers(n - 1)));
    } else {
      assert n > 10 ==> Continues(VerdictOf(CONFIG_STEPS[9], answers(9)));
    }
  }

  /**
  A run that comes to the configure gate ends at Ready exactly when it changed the
  configuration: reading, parsing and applying succeeded and the desired configuration was
  not already in place. In every other case it ends at Applying.
  */
  lemma ConfigRunEndsReadyIff(n: nat, answers: Answers, s: Local, a: Attempt)
    requires ReachesConfigure(n, answers, a)
    ensures After(CONFIG_STEPS, n, answers, s).phase == if Changes(a) then Ready else Applying
  {
    ConfigureGateStands();
    ConfigureDecidesLength(n, answers, a);
    assert After(CONFIG_STEPS, 9, answers, s).phase == Applying;
    assert After(CONFIG_STEPS, 10, answers, s).phase == Applying;
    if Changes(a) {
      assert After(CONFIG_STEPS, 11, answers, s).phase == Ready;
    }
  }

  /** With nothing to change the step reports success, yet the run never gets to Ready. */
  lemma UnchangedConfigStaysApplying(n: nat, answers: Answers, s: Local)
    requires ReachesConfigure(n, answers, Attempt(false, false, true, false))
    ensures Configure(Attempt(false, false, true, false)) == COMPLETE
    ensures After(CONFIG_STEPS, n, answers, s).phase == Applying
  {
    ConfigRunEndsReadyIff(n, answers, s, Attempt(false, false, true, false));
  }

  // ---------------------------------------------------------------- the operator's code

  /** The remote configuration, of which the model keeps how often it was applied. */
  class ConfigTopology {
    var applied: nat

    constructor ()
      ensures applied == 0
    {
      applied := 0;
    }

    method ApplyCartridgeConfig(fails: bool) returns (ok: bool)
      modifies this
      ensures applied == old(applied) + 1 && ok == !fails
    {
      applied := applied + 1;
      ok := !fails;
    }
  }

  /** The configuration is sent exactly when it was read, parsed and found to differ. */
  method ConfigureStep(a: Attempt, topology: ConfigTopology) returns (v: Verdict)
    modifies topology
    ensures v == Configure(a)
    ensures topology.applied == old(topology.applied) + if !a.readFails && !a.parseFails && !a.isSubset then 1 else 0
  {
    if a.readFails { return Error("unable to get config"); }
    if a.parseFails { return Error("unable to parse config"); }
    if a.isSubset { return COMPLETE; }
    var ok := topology.ApplyCartridgeConfig(a.applyFails);
    if !ok { return Error("unable to apply config"); }
    return NEXT_STEP;
  }
}
