/**
What the protocol guarantees in every reachable state: any number of reconciles of the
three controllers, interleaved in any way, with stale reads, lost writes and crashes. The
records of versions, join calls and bootstrap calls are complete, so what is said of them
in one state is said of everything that happened on the way to it.
*/
module ProtocolTheorems {
  import opened Basics
  import opened ClusterStatus
  import opened Election
  import opened Topology
  import opened Verdicts
  import opened Gates
  import opened Protocol
  import opened ProtocolInvariant
  import S = Steps

  /** Versions, calls, observations and the remote state are kept by whatever happens next. */
  lemma RunGrows(c: Setup, w: World, moves: seq<Move>)
    requires Reachable(c, w)
    ensures Grows(w, Run(c, w, moves))
  {
    ReachableInv(c, w);
    RunKeeps(c, w, moves);
  }

  /** Every move leads to a reachable state again. */
  lemma ReachableNext(c: Setup, w: World, m: Move)
    requires Reachable(c, w)
    ensures Reachable(c, Apply(c, w, m))
  {
    var start :| ReachableFrom(c, start, w);
    var moves :| w == Run(c, start, moves);
    assert (moves + [m])[..|moves|] == moves;
    assert Run(c, start, moves + [m]) == Apply(c, w, m);
    assert ReachableFrom(c, start, Apply(c, w, m));
  }

  // ---------------------------------------------------------------- no split brain

  /**
  No split brain: all join calls of reconciles that saw the cluster as not bootstrapped went
  through one and the same leader.
  */
  lemma NoSplitBrain(c: Setup, w: World, i: nat, j: nat)
    requires Reachable(c, w)
    requires i < |w.joins| && j < |w.joins| && !w.joins[i].sawBootstrapped && !w.joins[j].sawBootstrapped
    ensures w.joins[i].leader == w.joins[j].leader != ""
  {
    ReachableInv(c, w);
    assert JoinOk(w.founder, w.joins[i]) && JoinOk(w.founder, w.joins[j]);
  }

  /** And no version that is not bootstrapped ever named another leader. */
  lemma OneLeaderBeforeBootstrap(c: Setup, w: World, i: nat, v: nat)
    requires Reachable(c, w) && i < |w.joins| && !w.joins[i].sawBootstrapped
    requires v < |w.versions| && !w.versions[v].bootstrapped && EffectiveLeader(c.foreign, w.versions[v]) != ""
    ensures EffectiveLeader(c.foreign, w.versions[v]) == w.joins[i].leader
  {
    ReachableInv(c, w);
    assert JoinOk(w.founder, w.joins[i]) && VersionOk(c, w, v);
  }

  // ---------------------------------------------------------------- bootstrap after everyone joined

  /**
  Bootstrap comes last: a bootstrap call is made only for a list of roles that is not empty
  and of which every instance has joined by then.
  */
  lemma BootstrapAfterJoins(c: Setup, w: World, k: nat)
    requires Reachable(c, w) && k < |w.bootstraps|
    ensures var b := w.bootstraps[k];
      && |b.listed| > 0
      && forall item | item in b.listed :: item.name in c.roles && AllInstancesJoined(c.roles[item.name], b.joined)
  {
    ReachableInv(c, w);
    assert ListedOk(c, w.bootstraps[k].listed, w.bootstraps[k].joined);
  }

  // ---------------------------------------------------------------- who joins first, and through whom

  ghost predicate Effective(j: JoinCall) { j.after.joined != j.before.joined }

  /** The call changed the topology by its own pod at most. */
  ghost predicate AddsItsPod(j: JoinCall) {
    j.after.joined == j.before.joined || j.after.joined == j.before.joined + {j.pod}
  }

  ghost predicate Adds(j: JoinCall, pod: string) {
    j.pod == pod && pod !in j.before.joined && pod in j.after.joined
  }

  ghost predicate JoinedBy(joins: seq<JoinCall>, pod: string) {
    exists k: nat :: k < |joins| && Adds(joins[k], pod)
  }

  /** The calls account for the topology: it changes by them alone, one after another. */
  ghost predicate Chained(start: set<string>, w: World) {
    && (if w.joins == [] then w.remote.joined == start
        else w.joins[0].before.joined == start && w.joins[|w.joins| - 1].after.joined == w.remote.joined)
    && (forall k: nat | k < |w.joins| :: AddsItsPod(w.joins[k]))
    && (forall k: nat | k + 1 < |w.joins| :: w.joins[k].after.joined == w.joins[k + 1].before.joined)
    && (forall pod | pod in w.remote.joined && pod !in start :: JoinedBy(w.joins, pod))
  }

  ghost predicate NoCall(w: World, w': World) { w'.joins == w.joins && w'.remote.joined == w.remote.joined }

  ghost predicate OneCall(w: World, w': World) {
    && |w'.joins| == |w.joins| + 1 && w'.joins[..|w.joins|] == w.joins
    && var j := w'.joins[|w.joins|];
    && AddsItsPod(j) && j.before == w.remote && j.after == w'.remote
  }

  lemma GateCalls(c: Setup, w: World, r: Rec, g: S.Gate, input: Input)
    ensures var w' := GateStep(c, w, r, g, input).0; NoCall(w, w') || OneCall(w, w')
  {}

  lemma MoveCalls(c: Setup, w: World, m: Move)
    ensures NoCall(w, Apply(c, w, m)) || OneCall(w, Apply(c, w, m))
  {
    if m.Go? && m.id in w.recs && w.recs[m.id].pc < |StepsOf(w.recs[m.id].kind)| {
      var r := w.recs[m.id];
      var step := StepsOf(r.kind)[r.pc];
      if step.Check? { GateCalls(c, w, r, step.gate, m.input); }
    }
  }

  lemma CallChains(start: set<string>, w: World, w': World)
    requires Chained(start, w) && (NoCall(w, w') || OneCall(w, w'))
    ensures Chained(start, w')
  {
    forall pod | pod in w'.remote.joined && pod !in start
      ensures JoinedBy(w'.joins, pod)
    {
      if pod in w.remote.joined {
        var k: nat :| k < |w.joins| && Adds(w.joins[k], pod);
        assert w'.joins[k] == w.joins[k];
      } else {
        assert Adds(w'.joins[|w.joins|], pod);
      }
    }
    forall k: nat | k < |w'.joins|
      ensures AddsItsPod(w'.joins[k])
    {
      if k < |w.joins| { assert w'.joins[k] == w.joins[k]; }
    }
    forall k: nat | k + 1 < |w'.joins|
      ensures w'.joins[k].after.joined == w'.joins[k + 1].before.joined
    {
      assert w'.joins[k] == w.joins[k];
      if k + 1 < |w.joins| { assert w'.joins[k + 1] == w.joins[k + 1]; }
    }
  }

  lemma {:induction false} RunChains(c: Setup, start: World, moves: seq<Move>)
    requires start.joins == []
    ensures Chained(start.remote.joined, Run(c, start, moves))
  {
    if |moves| == 0 {
    } else {
      var before := Run(c, start, moves[..|moves| - 1]);
      RunChains(c, start, moves[..|moves| - 1]);
      MoveCalls(c, before, moves[|moves| - 1]);
      CallChains(start.remote.joined, before, Run(c, start, moves));
    }
  }

  /** Every instance in the topology that was not there at the start came by a join call for it. */
  lemma JoinsAccountForTopology(c: Setup, start: World, w: World)
    requires ReachableFrom(c, start, w)
    ensures Chained(start.remote.joined, w)
  {
    var moves :| w == Run(c, start, moves);
    RunChains(c, start, moves);
  }

  ghost predicate FirstEffective(joins: seq<JoinCall>, k: nat) {
    k < |joins| && Effective(joins[k]) && forall i: nat | i < k :: !Effective(joins[i])
  }

  lemma {:induction false} BeforeFirst(start: set<string>, w: World, k: nat)
    requires Chained(start, w) && k < |w.joins| && forall i: nat | i < k :: !Effective(w.joins[i])
    ensures w.joins[k].before.joined == start
  {
    if k == 0 {
    } else {
      BeforeFirst(start, w, k - 1);
    }
  }

  lemma {:induction false} JoinedGrows(start: set<string>, w: World, i: nat, k: nat)
    requires Chained(start, w) && i < k < |w.joins|
    ensures w.joins[i].after.joined <= w.joins[k].before.joined
  {
    if i + 1 == k {
    } else {
      JoinedGrows(start, w, i, k - 1);
      assert AddsItsPod(w.joins[k - 1]);
    }
  }

  /** The founder joins itself and does not report a UUID yet; at most it was asked to join before. */
  ghost predicate FoundersOwnJoin(founder: string, j: JoinCall) {
    j.pod == j.leader == founder && j.before.joined <= {founder}
  }

  /**
  Of every join call, whether it takes effect or not: it is executed through an instance
  that reports its UUID exactly if there is one; as long as there is none, all calls are
  the founder's for itself, in a topology of the founder at most.
  */
  lemma JoinsGoThroughBooted(c: Setup, w: World, k: nat)
    requires Reachable(c, w) && k < |w.joins|
    ensures var j := w.joins[k];
      && (j.leader in j.before.booted <==> j.before.booted != {})
      && (j.before.booted == {} ==> FoundersOwnJoin(w.founder, j))
  {
    ReachableInv(c, w);
    assert JoinOk(w.founder, w.joins[k]);
  }

  /**
  Founder first: in a run that starts with no instance joined, the first join that takes
  effect is the pre-bootstrap leader joining itself. Every later one is executed through an
  instance that already reports its UUID, unless the founder, which does not report one
  yet, is asked once more to join itself; such a call changes nothing.
  */
  lemma FounderFirst(c: Setup, start: World, w: World, k: nat)
    requires ReachableFrom(c, start, w) && start.remote.joined == {} && k < |w.joins|
    ensures FirstEffective(w.joins, k) ==> FoundersOwnJoin(w.founder, w.joins[k]) && w.joins[k].before.joined == {}
    ensures !FirstEffective(w.joins, k) && Effective(w.joins[k]) ==> w.joins[k].leader in w.joins[k].before.booted
    ensures w.joins[k].leader !in w.joins[k].before.booted ==>
      FoundersOwnJoin(w.founder, w.joins[k]) && (Effective(w.joins[k]) ==> FirstEffective(w.joins, k))
  {
    ReachableInv(c, w);
    JoinsAccountForTopology(c, start, w);
    assert JoinOk(w.founder, w.joins[k]) && AddsItsPod(w.joins[k]);
    if FirstEffective(w.joins, k) {
      BeforeFirst({}, w, k);
    } else if Effective(w.joins[k]) {
      var i: nat :| i < k && Effective(w.joins[i]);
      assert AddsItsPod(w.joins[i]);
      JoinedGrows({}, w, i, k);
    }
  }

  // ---------------------------------------------------------------- the leader stays

  /**
  Leader stability: a persisted leader changes only to another non-empty one, only in a step
  from a version that is already bootstrapped, and only after some reconcile based on that
  very version found its effective leader existing but unfit.
  */
  lemma LeaderStability(c: Setup, w: World, i: nat)
    requires Reachable(c, w) && i + 1 < |w.versions|
    requires w.versions[i].leader != "" && w.versions[i + 1].leader != w.versions[i].leader
    ensures w.versions[i + 1].leader != "" && w.versions[i].bootstrapped
    ensures SeenUnfit(w, i, EffectiveLeader(c.foreign, w.versions[i]))
  {
    ReachableInv(c, w);
    assert SuccessionOk(c, w, i);
  }

  // ---------------------------------------------------------------- the flag

  /** Once a version is bootstrapped, every later one is. */
  lemma BootstrappedIsMonotone(c: Setup, w: World, i: nat, j: nat)
    requires Reachable(c, w) && i <= j < |w.versions| && w.versions[i].bootstrapped
    ensures w.versions[j].bootstrapped
  {
    ReachableInv(c, w);
  }

  /** A persisted flag means that vshard is bootstrapped, that the call was made, and that there is a leader. */
  lemma FlagImpliesRemote(c: Setup, w: World, i: nat)
    requires Reachable(c, w) && i < |w.versions| && w.versions[i].bootstrapped
    ensures w.remote.vshard && |w.bootstraps| > 0 && EffectiveLeader(c.foreign, w.versions[i]) != ""
  {
    ReachableInv(c, w);
    assert VersionOk(c, w, i);
  }

  /** A cluster reconcile that stands before its bootstrap gate. */
  ghost predicate AtBootstrapGate(w: World, id: nat) {
    id in w.recs && w.recs[id].kind.ClusterKind? && w.recs[id].pc == S.BOOTSTRAP_GATE && !w.recs[id].done
  }

  /** A cluster reconcile that has just passed it, with the flag set in its copy. */
  ghost predicate PassedBootstrapGate(w: World, id: nat) {
    && id in w.recs && w.recs[id].kind.ClusterKind? && w.recs[id].pc == S.BOOTSTRAP_GATE + 1 && !w.recs[id].done
    && w.recs[id].copy.Some? && w.recs[id].copy.value.status.bootstrapped
  }

  lemma BootstrapGateIs(c: Setup, w: World, r: Rec, fate: BootstrapFate)
    requires r.kind.ClusterKind? && r.pc == S.BOOTSTRAP_GATE && r.copy.Some?
    ensures RecStep(c, w, r, Fate(fate)) == BootstrapGate(w, r, fate)
  {
    StepsStand(r.kind, r.pc);
  }

  /**
  Recovery: whenever vshard is bootstrapped already, for instance by a reconcile that died
  before it could write the flag, a reconcile at the bootstrap gate whose call reaches
  cartridge passes the gate with the flag set, and the remote side stays as it is.
  */
  lemma CrashedBootstrapIsRecovered(c: Setup, w: World, id: nat, refusal: Option<LuaError>)
    requires Reachable(c, w) && AtBootstrapGate(w, id) && w.remote.vshard
    ensures var w' := Apply(c, w, Go(id, Fate(Reached(refusal))));
      PassedBootstrapGate(w', id) && w'.remote == w.remote && w'.versions == w.versions
  {
    ReachableInv(c, w);
    var r := w.recs[id];
    BootstrapGateIs(c, w, r, Reached(refusal));
    BootstrapRecovers(r.copy.value.status, Reached(refusal));
  }

  /**
  And the flag reaches the store: a reconcile past the gate, wherever it stopped afterwards,
  persists it if its base is still the current version and its write goes through.
  */
  lemma RecoveredFlagIsWritten(c: Setup, w: World, id: nat)
    requires Reachable(c, w)
    requires id in w.recs && w.recs[id].kind.ClusterKind? && w.recs[id].pc > S.BOOTSTRAP_GATE && w.recs[id].done
    requires w.recs[id].copy.Some? && w.recs[id].copy.value.base == |w.versions| - 1
    ensures Last(Apply(c, w, Finish(id, NoFault)).versions).bootstrapped
  {
    ReachableInv(c, w);
    assert ClusterRecOk(c, w, w.recs[id]);
  }

  /**
  A reconcile whose bootstrap call is refused for want of routers or storages is over, with the
  flag unset, and shows UnableToBootstrap once its write goes through.
  */
  lemma RefusedBootstrapIsShown(c: Setup, w: World, id: nat, e: LuaError)
    requires AtBootstrapGate(w, id) && !w.remote.vshard
    requires w.recs[id].copy.Some? && !w.recs[id].copy.value.status.bootstrapped
    requires NoRemotes(Message(e)) && !IsAlreadyBootstrapped(e)
    ensures var w' := Apply(c, w, Go(id, Fate(Reached(Some(e)))));
      && id in w'.recs && w'.recs[id].done && w'.remote == w.remote
      && w'.recs[id].copy.Some? && !w'.recs[id].copy.value.status.bootstrapped
      && (w'.recs[id].copy.value.base == |w.versions| - 1 ==>
            Last(Apply(c, w', Finish(id, NoFault)).versions).phase == UnableToBootstrap)
  {
    var r := w.recs[id];
    BootstrapGateIs(c, w, r, Reached(Some(e)));
    BootstrapByReply(r.copy.value.status, Reply.Answer(false, Some(e)));
  }

  /**
  The phase a role reconcile ends with is persisted exactly if it read its role, the version
  it read is still the current one, the phase is a new one, and the write arrives.
  */
  lemma RolePhaseIsWritten(c: Setup, w: World, id: nat, fault: Fault)
    requires id in w.recs && w.recs[id].done && w.recs[id].kind.RoleKind? && w.recs[id].kind.role in w.roles
    ensures var r := w.recs[id];
      var h := w.roles[r.kind.role];
      Apply(c, w, Finish(id, fault)).roles ==
        if r.fetched && fault != RequestLost && r.own == |h| - 1 && h[|h| - 1] != r.phase
        then w.roles[r.kind.role := h + [r.phase]] else w.roles
  {
    var r := w.recs[id];
    assert w.roles[r.kind.role := w.roles[r.kind.role]] == w.roles;
  }

  // ---------------------------------------------------------------- the environment is as free as promised

  /** A step that reads the cluster: the first gate of its own controller, or the one of the others. */
  ghost predicate AtClusterRead(w: World, id: nat) {
    && id in w.recs && !w.recs[id].done
    && var k := w.recs[id].kind; w.recs[id].pc == if k.ClusterKind? then 1 else 4
  }

  /** Such a step goes on with whatever version was persisted at one time, and with nothing else. */
  lemma AnyVersionIsRead(c: Setup, w: World, id: nat, version: nat)
    requires AtClusterRead(w, id)
    ensures var r' := Apply(c, w, Go(id, Read(version))).recs[id];
      if version < |w.versions|
      then r'.copy == Some(Copy(version, w.versions[version])) && r'.pc == w.recs[id].pc + 1 && !r'.done
      else r'.done
  {
    assert S.CLUSTER_STEPS[1] == S.Check(S.Fetch);
    assert S.ROLE_STEPS[4] == S.CONFIG_STEPS[4] == S.Check(S.GetCluster);
  }

  /**
  Whatever is in flight, a reconcile may be lost with all it has not written, an object may get a
  new version with the same status, and a joined instance may start to report its UUID.
  */
  lemma EnvironmentMayMove(c: Setup, w: World, id: nat, role: string, pod: string)
    ensures Apply(c, w, Crash(id)) == w.(recs := w.recs - {id})
    ensures Apply(c, w, TouchCluster) == w.(versions := w.versions + [w.versions[|w.versions| - 1]])
    ensures role in w.roles && |w.roles[role]| > 0 ==>
      var h := w.roles[role];
      Apply(c, w, TouchRole(role)) == w.(roles := w.roles[role := h + [h[|h| - 1]]])
    ensures pod in w.remote.joined ==>
      Apply(c, w, Boots(pod)) == w.(remote := Remote(w.remote.joined, w.remote.booted + {pod}, w.remote.vshard))
  {}

  // ---------------------------------------------------------------- phases are witnesses

  /** Every persisted cluster status at a phase past the bootstrap gate is bootstrapped, and so is vshard. */
  lemma ClusterPhaseIsWitness(c: Setup, w: World, i: nat)
    requires Reachable(c, w) && i < |w.versions| && w.versions[i].phase in {FailoverConfiguring, Ready}
    ensures w.versions[i].bootstrapped && w.remote.vshard
  {
    ReachableInv(c, w);
    assert VersionOk(c, w, i);
  }

  /** A role persisted past its join gate has all its instances in the topology. */
  lemma JoinedPhaseIsWitness(c: Setup, w: World, role: string, p: Phase)
    requires Reachable(c, w) && role in w.roles && p in w.roles[role]
    requires p in {WaitingForBootstrap, ConfiguringWeights, Ready}
    ensures role in c.roles && AllInstancesJoined(c.roles[role], w.remote.joined)
  {
    ReachableInv(c, w);
    assert RolePhaseOk(c, w, role, p);
  }

  /** A role is persisted past its bootstrap gate only when the cluster is persisted as bootstrapped. */
  lemma WeightsPhaseIsWitness(c: Setup, w: World, role: string, p: Phase)
    requires Reachable(c, w) && role in w.roles && p in w.roles[role] && p in {ConfiguringWeights, Ready}
    ensures Last(w.versions).bootstrapped && w.remote.vshard
  {
    ReachableInv(c, w);
    assert RolePhaseOk(c, w, role, p);
    assert VersionOk(c, w, |w.versions| - 1);
  }
}
