/**
The stepped reconciler: the step lists of the three controllers and the loop that runs
one of them and then writes the status.
*/
module Steps {
  import opened Basics
  import opened ClusterStatus
  import opened Verdicts

  /** The steps that can end a run. */
  datatype Gate =
    | Fetch | CheckDeletion | SyncService | WaitForRoles(expected: seq<Phase>) | GetLeader
    | Bootstrap(onError: Phase) | ConfigureFailover
    | GetCluster | CreateStatefulSets | UpdateStatefulSets | EnsureCartridgeReady
    | JoinInstances(onError: Phase) | ConfigureVShardRoles | WaitForBootstrapped | SetVShardWeights
    | ConfigureCartridge

  datatype Step = Info | ResetStatus | SetPhase(phase: Phase) | Check(gate: Gate)

  const CLUSTER_STEPS: seq<Step> := [
    Info,
    Check(Fetch),
    SetPhase(Pending),
    Check(CheckDeletion),
    ResetStatus,
    SetPhase(SyncingService),
    Check(SyncService),
    SetPhase(WaitingForRoles),
    Check(WaitForRoles([WaitingForBootstrap, Ready])),
    Info,
    SetPhase(WaitingForLeader),
    Check(GetLeader),
    Check(Bootstrap(UnableToBootstrap)),
    SetPhase(FailoverConfiguring),
    Check(ConfigureFailover),
    SetPhase(Ready),
    Info
  ]

  /** The position of the bootstrap gate. */
  const BOOTSTRAP_GATE: nat := 12

  const ROLE_STEPS: seq<Step> := [
    Info,
    Check(Fetch),
    ResetStatus,
    SetPhase(WaitingForCluster),
    Check(GetCluster),
    SetPhase(Pending),
    Check(CreateStatefulSets),
    Check(UpdateStatefulSets),
    SetPhase(WaitingForLeader),
    Check(GetLeader),
    SetPhase(WaitForCartridgeReady),
    Check(EnsureCartridgeReady),
    SetPhase(Joining),
    Check(JoinInstances(ConfigError)),
    SetPhase(Configuring),
    Check(ConfigureVShardRoles),
    SetPhase(WaitingForBootstrap),
    Check(WaitForBootstrapped),
    SetPhase(ConfiguringWeights),
    Check(SetVShardWeights),
    SetPhase(Ready),
    Info
  ]

  const CONFIG_STEPS: seq<Step> := [
    Info,
    Check(Fetch),
    ResetStatus,
    SetPhase(WaitingForCluster),
    Check(GetCluster),
    Check(WaitForBootstrapped),
    SetPhase(WaitingForLeader),
    Check(GetLeader),
    SetPhase(Applying),
    Check(ConfigureCartridge),
    SetPhase(Ready),
    Info
  ]

  /** The phase a gate sets when it gives up on a misconfiguration. */
  function ErrorPhase(g: Gate): Option<Phase> {
    match g
    case Bootstrap(p) => Some(p)
    case JoinInstances(p) => Some(p)
    case _ => None
  }

  /** How a gate answers in one run, and whether it set its error phase. */
  datatype GateAnswer = GateAnswer(verdict: Verdict, marked: bool)

  /** What a run changes in the requested object's copy. */
  datatype Local = Local(phase: Phase, hasObject: bool)

  /** A run's gates answer by position in the list. */
  type Answers = nat -> GateAnswer

  function VerdictOf(step: Step, a: GateAnswer): Verdict {
    if step.Check? then a.verdict else NEXT_STEP
  }

  function Perform(step: Step, a: GateAnswer, s: Local): Local {
    match step
    case Info => s
    case ResetStatus => s.(phase := Unset)
    case SetPhase(p) => s.(phase := p)
    case Check(g) =>
      if Continues(a.verdict) then s.(hasObject := s.hasObject || g.Fetch?)
      else if a.marked && ErrorPhase(g).Some? then s.(phase := ErrorPhase(g).value)
      else s
  }

  /** The local state after the first n steps. */
  function After(steps: seq<Step>, n: nat, answers: Answers, s: Local): Local
    requires n <= |steps|
  {
    if n == 0 then s else Perform(steps[n - 1], answers(n - 1), After(steps, n - 1, answers, s))
  }

  /** The first n steps all let the run go on. */
  ghost predicate Passed(steps: seq<Step>, n: nat, answers: Answers) {
    n <= |steps| && forall i: nat | i < n :: Continues(VerdictOf(steps[i], answers(i)))
  }

  /** A run executes n steps: all before the last go on, and the last one stops unless the list ended. */
  ghost predicate Executes(steps: seq<Step>, n: nat, answers: Answers) {
    && n <= |steps|
    && (n > 0 ==> Passed(steps, n - 1, answers))
    && (n < |steps| ==> n > 0 && !Continues(VerdictOf(steps[n - 1], answers(n - 1))))
  }

  /** Some executed SetPhase step of this run set the phase, and everything before it passed. */
  ghost predicate Witnessed(steps: seq<Step>, n: nat, answers: Answers, p: Phase) {
    exists j: nat :: j < n <= |steps| && steps[j] == SetPhase(p) && Passed(steps, j, answers)
  }

  /** None of the first n steps touches the phase. */
  ghost predicate PhaseUntouched(steps: seq<Step>, n: nat) {
    n <= |steps| && forall i: nat | i < n :: !steps[i].SetPhase? && !steps[i].ResetStatus?
  }

  lemma {:induction false} PassedPhase(steps: seq<Step>, n: nat, answers: Answers, s: Local)
    requires Passed(steps, n, answers)
    ensures var p := After(steps, n, answers, s).phase;
      p == Unset || (p == s.phase && PhaseUntouched(steps, n)) || Witnessed(steps, n, answers, p)
  {
    if n == 0 {
    } else {
      PassedPhase(steps, n - 1, answers, s);
      var p := After(steps, n - 1, answers, s).phase;
      if steps[n - 1].SetPhase? {
        assert Passed(steps, n - 1, answers);
      } else if Witnessed(steps, n - 1, answers, p) {
        var j: nat :| j < n - 1 && steps[j] == SetPhase(p) && Passed(steps, j, answers);
        assert Witnessed(steps, n, answers, p);
      }
    }
  }

  /** The error phase of the gate that stopped a run after n steps. */
  ghost predicate StoppedWith(steps: seq<Step>, n: nat, answers: Answers, p: Phase) {
    && 0 < n <= |steps| && steps[n - 1].Check?
    && ErrorPhase(steps[n - 1].gate) == Some(p) && !Continues(answers(n - 1).verdict)
  }

  /**
  Phases are witnesses, for every step list and every run: the phase left at the end is
  the one the object had when no step touched it, the reset one, the error phase of the
  gate that stopped the run, or one set by a step before which every gate passed.
  */
  lemma PhaseIsWitness(steps: seq<Step>, n: nat, answers: Answers, s: Local)
    requires Executes(steps, n, answers)
    ensures var p := After(steps, n, answers, s).phase;
      || (p == s.phase && PhaseUntouched(steps, n)) || p == Unset
      || Witnessed(steps, n, answers, p) || StoppedWith(steps, n, answers, p)
  {
    if n > 0 {
      PassedPhase(steps, n - 1, answers, s);
      var p := After(steps, n, answers, s).phase;
      if steps[n - 1] == SetPhase(p) {
        assert Witnessed(steps, n, answers, p);
      } else if p == After(steps, n - 1, answers, s).phase && Witnessed(steps, n - 1, answers, p) {
        var j: nat :| j < n - 1 && steps[j] == SetPhase(p) && Passed(steps, j, answers);
        assert Witnessed(steps, n, answers, p);
      }
    }
  }

  /** A step after which the phase is a new one, and that phase. */
  function PhaseOf(step: Step): Option<Phase> {
    match step
    case SetPhase(p) => Some(p)
    case ResetStatus => Some(Unset)
    case _ => None
  }

  /** The gate that stopped the run after n steps found a misconfiguration and set its error phase. */
  ghost predicate GaveUp(steps: seq<Step>, n: nat, answers: Answers) {
    && 0 < n <= |steps| && steps[n - 1].Check? && ErrorPhase(steps[n - 1].gate).Some?
    && !Continues(answers(n - 1).verdict) && answers(n - 1).marked
  }

  /** A run has the object exactly if it had it before or a step fetched it. */
  lemma {:induction false} ObjectIsFetched(steps: seq<Step>, n: nat, answers: Answers, s: Local)
    requires n <= |steps|
    ensures After(steps, n, answers, s).hasObject <==>
      s.hasObject || exists i: nat :: i < n && steps[i] == Check(Fetch) && Continues(answers(i).verdict)
  {
    if n == 0 {
    } else {
      ObjectIsFetched(steps, n - 1, answers, s);
    }
  }

  lemma {:induction false} PhaseStays(steps: seq<Step>, n: nat, answers: Answers, s: Local, j: nat)
    requires j < n && Passed(steps, n, answers) && PhaseOf(steps[j]).Some?
    requires forall i | j < i < n :: PhaseOf(steps[i]).None?
    ensures After(steps, n, answers, s).phase == PhaseOf(steps[j]).value
  {
    if n == j + 1 {
    } else {
      PhaseStays(steps, n - 1, answers, s, j);
    }
  }

  /**
  The phase left by a run is the error phase of the gate that gave up, and otherwise the
  one of the last executed step that has one.
  */
  lemma {:induction false} LastPhaseIsLeft(steps: seq<Step>, n: nat, answers: Answers, s: Local, j: nat)
    requires Executes(steps, n, answers) && j < n && PhaseOf(steps[j]).Some?
    requires forall i | j < i < n :: PhaseOf(steps[i]).None?
    ensures After(steps, n, answers, s).phase ==
      if GaveUp(steps, n, answers) then ErrorPhase(steps[n - 1].gate).value else PhaseOf(steps[j]).value
  {
    if j < n - 1 {
      PhaseStays(steps, n - 1, answers, s, j);
    }
  }

  /** The list sets this phase at position j and nowhere else. */
  ghost predicate SetOnlyAt(steps: seq<Step>, p: Phase, j: nat) {
    && j < |steps| && steps[j] == SetPhase(p)
    && forall i: nat | i < |steps| && steps[i] == SetPhase(p) :: i == j
  }

  /** The error phases are the only ones a gate sets. */
  predicate IsErrorPhase(p: Phase) { p == UnableToBootstrap || p == ConfigError }

  ghost predicate ErrorPhasesOnly(steps: seq<Step>) {
    forall i: nat | i < |steps| && steps[i].Check? && ErrorPhase(steps[i].gate).Some? ::
      IsErrorPhase(ErrorPhase(steps[i].gate).value)
  }

  /** All three lists fetch the object in their second step and touch its phase in the third. */
  ghost predicate FetchesFirst(steps: seq<Step>) {
    && |steps| > 2 && steps[0] == Info && steps[1] == Check(Fetch) && (steps[2].SetPhase? || steps[2].ResetStatus?)
  }

  lemma {:induction false} ObjectNeedsFetch(steps: seq<Step>, n: nat, answers: Answers, s: Local)
    requires n <= |steps| && n <= 2 && FetchesFirst(steps) && !s.hasObject
    ensures After(steps, n, answers, s).hasObject ==> n == 2 && Continues(answers(1).verdict)
  {
    if n == 0 {
    } else {
      ObjectNeedsFetch(steps, n - 1, answers, s);
    }
  }

  /**
  A phase that a list sets in one place, written at the end of a run, proves that every
  gate before that place passed in that same run, whatever phase the object had before.
  */
  lemma WrittenPhaseProvesGates(steps: seq<Step>, n: nat, answers: Answers, s: Local, j: nat)
    requires Executes(steps, n, answers) && FetchesFirst(steps) && ErrorPhasesOnly(steps)
    requires !s.hasObject && After(steps, n, answers, s).hasObject
    requires var p := After(steps, n, answers, s).phase; SetOnlyAt(steps, p, j) && p != Unset && !IsErrorPhase(p)
    ensures j < n && Passed(steps, j, answers)
  {
    PhaseIsWitness(steps, n, answers, s);
    if n <= 2 {
      ObjectNeedsFetch(steps, n, answers, s);
      assert false;
    }
  }

  /** What the three lists have in common. */
  ghost predicate WellShaped(steps: seq<Step>) { FetchesFirst(steps) && ErrorPhasesOnly(steps) }

  lemma ClusterPhases()
    ensures WellShaped(CLUSTER_STEPS)
    ensures SetOnlyAt(CLUSTER_STEPS, FailoverConfiguring, 13)
    ensures SetOnlyAt(CLUSTER_STEPS, Ready, 15)
  {}

  lemma RolePhases()
    ensures WellShaped(ROLE_STEPS)
    ensures SetOnlyAt(ROLE_STEPS, WaitingForBootstrap, 16)
    ensures SetOnlyAt(ROLE_STEPS, ConfiguringWeights, 18)
    ensures SetOnlyAt(ROLE_STEPS, Ready, 20)
  {}

  lemma ConfigPhases()
    ensures WellShaped(CONFIG_STEPS)
    ensures SetOnlyAt(CONFIG_STEPS, Applying, 8)
    ensures SetOnlyAt(CONFIG_STEPS, Ready, 10)
  {}

  /** A run of n steps that leaves this phase in an object it fetched itself. */
  ghost predicate Leaves(steps: seq<Step>, n: nat, answers: Answers, s: Local, p: Phase) {
    Executes(steps, n, answers) && !s.hasObject && After(steps, n, answers, s) == Local(p, true)
  }

  /** A run that wrote this phase passed the first j steps. */
  ghost predicate Proves(steps: seq<Step>, p: Phase, j: nat) {
    forall n: nat, answers: Answers, s: Local |
      Leaves(steps, n, answers, s, p) ::
      j < n && Passed(steps, j, answers)
  }

  lemma SetOnceProves(steps: seq<Step>, p: Phase, j: nat)
    requires WellShaped(steps) && SetOnlyAt(steps, p, j) && p != Unset && !IsErrorPhase(p)
    ensures Proves(steps, p, j)
  {
    forall n: nat, answers: Answers, s: Local |
      Leaves(steps, n, answers, s, p)
      ensures j < n && Passed(steps, j, answers)
    {
      WrittenPhaseProvesGates(steps, n, answers, s, j);
    }
  }

  /**
  What the telling phases of the three controllers prove about the run that wrote them:
  a cluster past its bootstrap gate, a role past its join and role-configuration gates
  and, later, past the bootstrap gate, a configuration past the bootstrap and leader gates.
  */
  lemma PhasesProveGates()
    ensures Proves(CLUSTER_STEPS, FailoverConfiguring, 13) && Proves(CLUSTER_STEPS, Ready, 15)
    ensures Proves(ROLE_STEPS, WaitingForBootstrap, 16) && Proves(ROLE_STEPS, ConfiguringWeights, 18)
            && Proves(ROLE_STEPS, Ready, 20)
    ensures Proves(CONFIG_STEPS, Applying, 8) && Proves(CONFIG_STEPS, Ready, 10)
  {
    ClusterPhases();
    RolePhases();
    ConfigPhases();
    SetOnceProves(CLUSTER_STEPS, FailoverConfiguring, 13);
    SetOnceProves(CLUSTER_STEPS, Ready, 15);
    SetOnceProves(ROLE_STEPS, WaitingForBootstrap, 16);
    SetOnceProves(ROLE_STEPS, ConfiguringWeights, 18);
    SetOnceProves(ROLE_STEPS, Ready, 20);
    SetOnceProves(CONFIG_STEPS, Applying, 8);
    SetOnceProves(CONFIG_STEPS, Ready, 10);
  }

  /** The gates among the first j steps, in order. */
  function GatesBefore(steps: seq<Step>, j: nat): seq<Gate>
    requires j <= |steps|
  {
    if j == 0 then [] else GatesBefore(steps, j - 1) + if steps[j - 1].Check? then [steps[j - 1].gate] else []
  }

  /** The run passed these gates one after another, and no other gate in between. */
  ghost predicate PassedGates(steps: seq<Step>, n: nat, answers: Answers, gates: seq<Gate>) {
    exists j: nat :: j < n <= |steps| && Passed(steps, j, answers) && GatesBefore(steps, j) == gates
  }

  lemma PhaseNamesGates(steps: seq<Step>, n: nat, answers: Answers, s: Local, p: Phase, j: nat, gates: seq<Gate>)
    requires WellShaped(steps) && SetOnlyAt(steps, p, j) && p != Unset && !IsErrorPhase(p)
    requires Leaves(steps, n, answers, s, p) && GatesBefore(steps, j) == gates
    ensures PassedGates(steps, n, answers, gates)
  {
    WrittenPhaseProvesGates(steps, n, answers, s, j);
  }

  lemma ClusterGates()
    ensures GatesBefore(CLUSTER_STEPS, 13) ==
      [Fetch, CheckDeletion, SyncService, WaitForRoles([WaitingForBootstrap, Ready]), GetLeader,
       Bootstrap(UnableToBootstrap)]
    ensures GatesBefore(CLUSTER_STEPS, 15) == GatesBefore(CLUSTER_STEPS, 13) + [ConfigureFailover]
  {
    assert GatesBefore(CLUSTER_STEPS, 2) == [Fetch];
    assert GatesBefore(CLUSTER_STEPS, 4) == [Fetch, CheckDeletion];
    assert GatesBefore(CLUSTER_STEPS, 7) == [Fetch, CheckDeletion, SyncService] by {
      assert GatesBefore(CLUSTER_STEPS, 6) == [Fetch, CheckDeletion];
    }
    assert GatesBefore(CLUSTER_STEPS, 9) ==
      [Fetch, CheckDeletion, SyncService, WaitForRoles([WaitingForBootstrap, Ready])];
    assert GatesBefore(CLUSTER_STEPS, 11) == GatesBefore(CLUSTER_STEPS, 9);
  }

  /** The gates of a role up to readiness. */
  const ROLE_UNTIL_READY: seq<Gate> :=
      [Fetch, GetCluster, CreateStatefulSets, UpdateStatefulSets, GetLeader, EnsureCartridgeReady]

  /** Two steps further, one of which is a gate. */
  lemma NextGate(steps: seq<Step>, j: nat, g: Gate)
    requires j + 2 <= |steps| && !steps[j].Check? && steps[j + 1] == Check(g)
    ensures GatesBefore(steps, j + 2) == GatesBefore(steps, j) + [g]
  {}

  lemma RoleGatesUntilUpdate()
    ensures GatesBefore(ROLE_STEPS, 8) == [Fetch, GetCluster, CreateStatefulSets, UpdateStatefulSets]
  {
    assert GatesBefore(ROLE_STEPS, 2) == [Fetch];
    assert GatesBefore(ROLE_STEPS, 4) == [Fetch];
    assert GatesBefore(ROLE_STEPS, 6) == [Fetch, GetCluster];
  }

  lemma RoleGatesUntilReady()
    ensures GatesBefore(ROLE_STEPS, 12) == ROLE_UNTIL_READY
  {
    RoleGatesUntilUpdate();
    NextGate(ROLE_STEPS, 8, GetLeader);
    NextGate(ROLE_STEPS, 10, EnsureCartridgeReady);
  }

  /** The gates of a role up to the configuration of its replicasets. */
  const ROLE_UNTIL_CONFIGURED: seq<Gate> := ROLE_UNTIL_READY + [JoinInstances(ConfigError)] + [ConfigureVShardRoles]

  lemma RoleGatesUntilConfigured()
    ensures GatesBefore(ROLE_STEPS, 16) == ROLE_UNTIL_CONFIGURED
  {
    RoleGatesUntilReady();
    NextGate(ROLE_STEPS, 12, JoinInstances(ConfigError));
    NextGate(ROLE_STEPS, 14, ConfigureVShardRoles);
  }

  lemma RoleGates()
    ensures GatesBefore(ROLE_STEPS, 16) == ROLE_UNTIL_CONFIGURED
    ensures GatesBefore(ROLE_STEPS, 18) == ROLE_UNTIL_CONFIGURED + [WaitForBootstrapped]
    ensures GatesBefore(ROLE_STEPS, 20) == ROLE_UNTIL_CONFIGURED + [WaitForBootstrapped] + [SetVShardWeights]
  {
    RoleGatesUntilConfigured();
    NextGate(ROLE_STEPS, 16, WaitForBootstrapped);
    NextGate(ROLE_STEPS, 18, SetVShardWeights);
  }

  lemma ConfigGates()
    ensures GatesBefore(CONFIG_STEPS, 8) == [Fetch, GetCluster, WaitForBootstrapped, GetLeader]
    ensures GatesBefore(CONFIG_STEPS, 10) == [Fetch, GetCluster, WaitForBootstrapped, GetLeader, ConfigureCartridge]
  {
    assert GatesBefore(CONFIG_STEPS, 2) == [Fetch];
    assert GatesBefore(CONFIG_STEPS, 4) == [Fetch];
    assert GatesBefore(CONFIG_STEPS, 6) == [Fetch, GetCluster, WaitForBootstrapped];
  }

  /**
  A role run that leaves WaitingForBootstrap created and updated its StatefulSets, saw its
  pods ready, joined its instances and configured their roles, in this order; one that
  leaves ConfiguringWeights then saw the cluster bootstrapped, and one that leaves Ready
  set the weights after that.
  */
  lemma RolePhasesNameGates(n: nat, answers: Answers, s: Local, p: Phase)
    requires Leaves(ROLE_STEPS, n, answers, s, p)
    ensures p == WaitingForBootstrap ==> PassedGates(ROLE_STEPS, n, answers, ROLE_UNTIL_CONFIGURED)
    ensures p == ConfiguringWeights ==>
      PassedGates(ROLE_STEPS, n, answers, ROLE_UNTIL_CONFIGURED + [WaitForBootstrapped])
    ensures p == Ready ==>
      PassedGates(ROLE_STEPS, n, answers, ROLE_UNTIL_CONFIGURED + [WaitForBootstrapped] + [SetVShardWeights])
  {
    RolePhases();
    RoleGates();
    if p == WaitingForBootstrap {
      PhaseNamesGates(ROLE_STEPS, n, answers, s, p, 16, GatesBefore(ROLE_STEPS, 16));
    } else if p == ConfiguringWeights {
      PhaseNamesGates(ROLE_STEPS, n, answers, s, p, 18, GatesBefore(ROLE_STEPS, 18));
    } else if p == Ready {
      PhaseNamesGates(ROLE_STEPS, n, answers, s, p, 20, GatesBefore(ROLE_STEPS, 20));
    }
  }

  const CLUSTER_UNTIL_BOOTSTRAPPED: seq<Gate> :=
    [Fetch, CheckDeletion, SyncService, WaitForRoles([WaitingForBootstrap, Ready]), GetLeader,
     Bootstrap(UnableToBootstrap)]

  /**
  A cluster run past its bootstrap saw its roles where they had to be, had a leader and
  bootstrapped, in this order; one that leaves Ready configured failover after that.
  */
  lemma ClusterPhasesNameGates(n: nat, answers: Answers, s: Local, p: Phase)
    requires Leaves(CLUSTER_STEPS, n, answers, s, p)
    ensures p == FailoverConfiguring ==> PassedGates(CLUSTER_STEPS, n, answers, CLUSTER_UNTIL_BOOTSTRAPPED)
    ensures p == Ready ==> PassedGates(CLUSTER_STEPS, n, answers, CLUSTER_UNTIL_BOOTSTRAPPED + [ConfigureFailover])
  {
    ClusterPhases();
    ClusterGates();
    if p == FailoverConfiguring {
      PhaseNamesGates(CLUSTER_STEPS, n, answers, s, p, 13, GatesBefore(CLUSTER_STEPS, 13));
    } else if p == Ready {
      PhaseNamesGates(CLUSTER_STEPS, n, answers, s, p, 15, GatesBefore(CLUSTER_STEPS, 15));
    }
  }

  /** A configuration run at Applying saw the cluster bootstrapped before it asked for a leader; at Ready it applied. */
  lemma ConfigPhasesNameGates(n: nat, answers: Answers, s: Local, p: Phase)
    requires Leaves(CONFIG_STEPS, n, answers, s, p)
    ensures p == Applying ==> PassedGates(CONFIG_STEPS, n, answers, [Fetch, GetCluster, WaitForBootstrapped, GetLeader])
    ensures p == Ready ==>
      PassedGates(CONFIG_STEPS, n, answers, [Fetch, GetCluster, WaitForBootstrapped, GetLeader, ConfigureCartridge])
  {
    ConfigPhases();
    ConfigGates();
    if p == Applying {
      PhaseNamesGates(CONFIG_STEPS, n, answers, s, p, 8, GatesBefore(CONFIG_STEPS, 8));
    } else if p == Ready {
      PhaseNamesGates(CONFIG_STEPS, n, answers, s, p, 10, GatesBefore(CONFIG_STEPS, 10));
    }
  }

  // ---------------------------------------------------------------- the operator's code

  const ERROR_TIMEOUT: nat := 10

  class Context {
    var local: Local
    const deleting: bool
    const finalizers: nat

    constructor (local: Local, deleting: bool, finalizers: nat)
      ensures this.local == local && this.deleting == deleting && this.finalizers == finalizers
    {
      this.local, this.deleting, this.finalizers := local, deleting, finalizers;
    }
  }

  /** What a run tells the work queue, given the verdict of its last step and the outcome of the status write. */
  function RunReport(last: Verdict, writeError: Option<string>): (RunResult, Option<string>) {
    if writeError.Some? then (RunResult(ERROR_TIMEOUT), writeError)
    else if last.res.Some? then (last.res.value, last.err)
    else (RunResult(if last.err.Some? then ERROR_TIMEOUT else 0), last.err)
  }

  /** The verdict of the last step that was executed. */
  function LastVerdict(steps: seq<Step>, n: nat, answers: Answers): Verdict
    requires n <= |steps|
  {
    if n == 0 then NEXT_STEP else VerdictOf(steps[n - 1], answers(n - 1))
  }

  /**
  The work queue is told what the last step wants, an error with a delay before the next
  try, or nothing; an error of the status write comes first.
  */
  lemma ReportByOutcome(last: Verdict, writeError: Option<string>)
    ensures var (res, err) := RunReport(last, writeError);
      && (writeError.Some? ==> err == writeError && res.requeueAfter > 0)
      && (writeError.None? && last.res.Some? ==> res == last.res.value && err == last.err)
      && (writeError.None? && last.res.None? && last.err.Some? ==> err == last.err && res.requeueAfter > 0)
      && (writeError.None? && Continues(last) ==> res == RunResult(0) && err.None?)
  {}

  /**
  An object that has to be tried again is put back into the queue: a step that asks for it gets
  its delay, a failed step some delay.
  */
  lemma RetriesAreQueued(seconds: nat, message: string)
    ensures RunReport(Requeue(seconds), None) == (RunResult(seconds), None)
    ensures RunReport(Error(message), None).0.requeueAfter > 0 && RunReport(Error(message), None).1 == Some(message)
    ensures RunReport(COMPLETE, None) == (RunResult(0), None)
  {}

  method Run(ctx: Context, steps: seq<Step>, answers: Answers, writeError: Option<string>)
    returns (res: RunResult, err: Option<string>, executed: nat, wrote: bool)
    modifies ctx
    ensures Executes(steps, executed, answers)
    ensures ctx.local == After(steps, executed, answers, old(ctx.local))
    ensures wrote <==> ctx.local.hasObject && (!ctx.deleting || ctx.finalizers > 0)
    ensures (res, err) == RunReport(LastVerdict(steps, executed, answers), if wrote then writeError else None)
    ensures wrote && writeError.Some? ==> err == writeError && res.requeueAfter > 0
    ensures !(wrote && writeError.Some?) ==>
      var last := LastVerdict(steps, executed, answers);
      && (last.res.Some? ==> res == last.res.value && err == last.err)
      && (last.res.None? && last.err.Some? ==> err == last.err && res.requeueAfter > 0)
      && (Passed(steps, |steps|, answers) ==> res == RunResult(0) && err.None?)
  {
    executed := 0;
    var last := NEXT_STEP;
    while executed < |steps| && Continues(last)
      invariant executed <= |steps|
      invariant executed > 0 ==> Passed(steps, executed - 1, answers)
      invariant last == if executed == 0 then NEXT_STEP else VerdictOf(steps[executed - 1], answers(executed - 1))
      invariant ctx.local == After(steps, executed, answers, old(ctx.local))
    {
      var step := steps[executed];
      ctx.local := Perform(step, answers(executed), ctx.local);
      last := VerdictOf(step, answers(executed));
      executed := executed + 1;
    }

    wrote := UpdatesStatus(ctx);
    if wrote && writeError.Some? {
      return RunResult(ERROR_TIMEOUT), writeError, executed, wrote;
    }
    var result := last.res;
    if last.err.Some? && result.None? { result := Some(RunResult(ERROR_TIMEOUT)); }
    if result.None? { result := Some(RunResult(0)); }
    return result.value, last.err, executed, wrote;
  }

  /** Whether `UpdateStatus` writes: there is an object, and it is not already released by deletion. */
  predicate UpdatesStatus(ctx: Context)
    reads ctx
  {
    ctx.local.hasObject && (!ctx.deleting || ctx.finalizers > 0)
  }
}
