/**
The gates of the step lists: waiting for roles, mapping an election to a verdict,
bootstrapping, and counting ready pods.
*/
module Gates {
  import opened Basics
  import opened ClusterStatus
  import opened Election
  import opened Topology
  import opened Verdicts
  import Names

  // ---------------------------------------------------------------- waiting for roles

  datatype RoleItem = RoleItem(name: string, phase: Phase)

  datatype RolesView = RolesFail | Roles(items: seq<RoleItem>)

  /** `IsAllRolesAtPhase` on a successful list: not vacuous, one other phase is enough to refuse. */
  predicate AllAtPhase(items: seq<RoleItem>, phase: Phase) {
    |items| > 0 && forall r | r in items :: r.phase == phase
  }

  method IsAllRolesAtPhase(view: RolesView, phase: Phase) returns (r: Result<bool, string>)
    ensures r == match view case RolesFail => Err("list") case Roles(items) => Ok(AllAtPhase(items, phase))
  {
    if view.RolesFail? { return Err("list"); }
    if |view.items| == 0 { return Ok(false); }
    for i := 0 to |view.items|
      invariant forall j | 0 <= j < i :: view.items[j].phase == phase
    {
      if view.items[i].phase != phase { return Ok(false); }
    }
    return Ok(true);
  }

  function ViewAt(views: seq<RolesView>, k: nat): RolesView {
    if k < |views| then views[k] else RolesFail
  }

  /**
  `WaitForRolesPhaseStep`: one list call per expected phase, in order. The roles are listed
  anew each time, so the calls may see different states.
  */
  function WaitForRoles(expected: seq<Phase>, views: seq<RolesView>): Verdict {
    if |expected| == 0 then COMPLETE
    else
      match ViewAt(views, 0)
      case RolesFail => Error("list")
      case Roles(items) =>
        if AllAtPhase(items, expected[0]) then NEXT_STEP
        else WaitForRoles(expected[1..], if |views| == 0 then [] else views[1..])
  }

  ghost predicate OpensAt(expected: seq<Phase>, views: seq<RolesView>, k: nat) {
    && k < |expected|
    && (forall j: nat | j <= k :: ViewAt(views, j).Roles?)
    && AllAtPhase(ViewAt(views, k).items, expected[k])
  }

  /** The gate opens exactly when some listing shows all roles at its phase and no earlier listing failed. */
  lemma {:induction false} GateOpensIff(expected: seq<Phase>, views: seq<RolesView>)
    ensures WaitForRoles(expected, views) == NEXT_STEP <==>
      exists k: nat :: OpensAt(expected, views, k)
  {
    if |expected| == 0 {
    } else {
      var rest := if |views| == 0 then [] else views[1..];
      GateOpensIff(expected[1..], rest);
      if OpensAt(expected, views, 0) {
      } else {
        forall k: nat | OpensAt(expected, views, k)
          ensures OpensAt(expected[1..], rest, k - 1)
        {
          forall j: nat | j < k ensures ViewAt(rest, j) == ViewAt(views, j + 1) {}
          assert ViewAt(views, 0).Roles?;
        }
        forall k: nat | OpensAt(expected[1..], rest, k) && ViewAt(views, 0).Roles?
          ensures OpensAt(expected, views, k + 1)
        {
          forall j: nat | 0 < j <= k + 1 ensures ViewAt(views, j) == ViewAt(rest, j - 1) {}
        }
      }
    }
  }

  /** A closed gate ends the run for good if all listings succeed; a listing that fails first is an error. */
  lemma {:induction false} ClosedGateByListings(expected: seq<Phase>, views: seq<RolesView>)
    ensures WaitForRoles(expected, views) == COMPLETE <==>
      forall k: nat | k < |expected| ::
        ViewAt(views, k).Roles? && !AllAtPhase(ViewAt(views, k).items, expected[k])
    ensures WaitForRoles(expected, views) in {NEXT_STEP, COMPLETE, Error("list")}
  {
    if |expected| == 0 {
    } else {
      var rest := if |views| == 0 then [] else views[1..];
      ClosedGateByListings(expected[1..], rest);
      forall k: nat
        ensures ViewAt(rest, k) == ViewAt(views, k + 1)
      {}
      forall k: nat | 0 < k < |expected|
        ensures expected[1..][k - 1] == expected[k] && ViewAt(views, k) == ViewAt(rest, k - 1)
      {}
    }
  }

  method WaitForRolesPhase(expected: seq<Phase>, views: seq<RolesView>) returns (v: Verdict)
    ensures v == WaitForRoles(expected, views)
  {
    var rest := views;
    for k := 0 to |expected|
      invariant WaitForRoles(expected, views) == WaitForRoles(expected[k..], rest)
    {
      var r := IsAllRolesAtPhase(ViewAt(rest, 0), expected[k]);
      if r.Err? { return Error("list"); }
      if r.value { return NEXT_STEP; }
      assert expected[k..][1..] == expected[k + 1..];
      rest := if |rest| == 0 then [] else rest[1..];
    }
    return COMPLETE;
  }

  // ---------------------------------------------------------------- leader, bootstrap

  /**
  `GetLeaderStep`: a lost race and, before bootstrap, a lack of candidates are worth another
  try; the rest are errors.
  */
  function LeaderVerdict(r: Result<string, ElectionError>, bootstrapped: bool): Verdict {
    match r
    case Ok(_) => NEXT_STEP
    case Err(e) =>
      if e == ElectionConflict || (e == NoAvailableLeader && !bootstrapped) then Requeue(10)
      else Error("election")
  }

  /**
  The gate by the situation of the election: it opens exactly when there is a leader, asks
  for another try exactly when the race was lost or, before bootstrap, every candidate was
  passed over, and fails otherwise.
  */
  lemma LeaderGateBySituation(foreign: string, roles: Option<seq<RoleShape>>, pods: Pods, h: History, c: Copy,
                              fault: Fault)
    ensures var e := Election.GetLeader(foreign, roles, pods, h, c, fault);
      var q := QueryOf(foreign, c.status, pods);
      var v := LeaderVerdict(e.result, e.copy.status.bootstrapped);
      && (v == NEXT_STEP <==> e.result.Ok?)
      && (v == Requeue(10) <==>
            && NeedsElection(foreign, c.status, pods)
            && (|| (FindNewLeader(roles, q).Ok? && c.base != |h| - 1 && fault == NoFault)
                || (roles.Some? && AllPassedOver(roles.value, q) && !c.status.bootstrapped)))
      && (v != NEXT_STEP && v != Requeue(10) ==> v.res.None? && v.err.Some?)
  {
    ElectionBySituation(foreign, roles, pods, h, c, fault);
    assert Election.GetLeader(foreign, roles, pods, h, c, fault).copy.status.bootstrapped == c.status.bootstrapped;
  }

  method GetLeaderStep(election: LeaderElection, cluster: Cluster, ghost h: History, ghost c: Copy)
    returns (leader: string, v: Verdict)
    requires election.store.versions == h && cluster.Value() == c
    modifies election.store, cluster
    ensures var e := Election.GetLeader(cluster.foreignLeader, election.roles, election.pods, h, c, election.fault);
      && election.store.versions == e.versions && cluster.Value() == e.copy
      && v == LeaderVerdict(e.result, e.copy.status.bootstrapped)
      && leader == (if e.result.Ok? then e.result.value else "")
  {
    var r := election.GetLeaderInstance(cluster);
    if r.Err? {
      if r.error == ElectionConflict { return "", Requeue(10); }
      if r.error == NoAvailableLeader && !cluster.bootstrapped { return "", Requeue(10); }
      return "", Error("election");
    }
    return r.value, NEXT_STEP;
  }

  const NO_REMOTES := "No remotes with role \""
  const NO_ROUTER := NO_REMOTES + "vshard-router\" available"
  const NO_STORAGE := NO_REMOTES + "vshard-storage\" available"

  /** `BootstrapStep` once the reply is in: the new status and the verdict. */
  function AfterBootstrap(s: Status, reply: Reply): (Status, Verdict) {
    match BootstrapError(reply)
    case None => (s.(bootstrapped := true), NEXT_STEP)
    case Some(e) =>
      if Contains(e, NO_ROUTER) || Contains(e, NO_STORAGE) then (s.(phase := UnableToBootstrap), COMPLETE)
      else (s, Error(e))
  }

  const PREFIX := "unable to bootstrap cluster: "

  /**
  Where a text begins with a letter that the prefix does not have, it is in the whole exactly if
  it is in the rest.
  */
  lemma PrefixHasNoN(k: nat)
    requires k < |PREFIX|
    ensures PREFIX[k] != 'N'
  {}

  lemma PrefixHidesNothing(m: string, part: string)
    requires |part| > 0 && part[0] == 'N'
    ensures Contains(PREFIX + m, part) <==> Contains(m, part)
  {
    var whole := PREFIX + m;
    if i :| 0 <= i <= |whole| - |part| && OccursAt(whole, part, i) {
      assert whole[i] == whole[i..i + |part|][0] == 'N';
      if i < |PREFIX| { PrefixHasNoN(i); }
      assert whole[i..i + |part|] == m[i - |PREFIX|..i - |PREFIX| + |part|];
      assert OccursAt(m, part, i - |PREFIX|);
    }
    if i :| 0 <= i <= |m| - |part| && OccursAt(m, part, i) {
      assert whole[|PREFIX| + i..|PREFIX| + i + |part|] == m[i..i + |part|];
      assert OccursAt(whole, part, |PREFIX| + i);
    }
  }

  /** Cartridge has nowhere to bootstrap: no router or no storage is available. */
  predicate NoRemotes(m: string) { Contains(m, NO_ROUTER) || Contains(m, NO_STORAGE) }

  /**
  The gate by the reply: no Lua error, or the one that says it was bootstrapped before, sets
  the flag and goes on; one that names missing routers or storages gives up for good at
  UnableToBootstrap; every other failure, in transport or in Lua, is an error that leaves
  the status alone, to be tried again.
  */
  lemma BootstrapByReply(s: Status, reply: Reply)
    requires !s.bootstrapped
    ensures var (s', v) := AfterBootstrap(s, reply);
      match reply
      case Answer(_, None) => s' == Status(s.phase, true, s.leader) && v == NEXT_STEP
      case Answer(_, Some(e)) =>
        if e.className == "Bootstrapping vshard failed" && Contains(e.text, "already bootstrapped")
        then s' == Status(s.phase, true, s.leader) && v == NEXT_STEP
        else if NoRemotes(Message(e)) then s' == Status(UnableToBootstrap, false, s.leader) && v == COMPLETE
        else s' == s && v.err.Some? && v.res.None?
      case TransportFails(m) =>
        if NoRemotes(m) then s' == Status(UnableToBootstrap, false, s.leader) && v == COMPLETE
        else s' == s && v.err.Some? && v.res.None?
  {
    assert NO_ROUTER[0] == 'N' && NO_STORAGE[0] == 'N';
    match reply
    case TransportFails(m) =>
      PrefixHidesNothing(m, NO_ROUTER);
      PrefixHidesNothing(m, NO_STORAGE);
    case Answer(_, Some(e)) =>
      PrefixHidesNothing(Message(e), NO_ROUTER);
      PrefixHidesNothing(Message(e), NO_STORAGE);
    case Answer(_, None) =>
  }

  /** The whole step: a set flag skips the remote call. */
  function Bootstrapping(s: Status, vshard: bool, fate: BootstrapFate): (Status, bool, Verdict) {
    if s.bootstrapped then (s, vshard, NEXT_STEP)
    else
      var (vshard', reply) := BootstrapVshard(vshard, fate);
      var (s', v) := AfterBootstrap(s, reply);
      (s', vshard', v)
  }

  /**
  The flag is set only when the remote side is bootstrapped, the step goes on exactly when
  the flag is set, and a flag once set stays.
  */
  lemma FlagFollowsRemote(s: Status, vshard: bool, fate: BootstrapFate)
    requires s.bootstrapped ==> vshard
    ensures var (s', vshard', v) := Bootstrapping(s, vshard, fate);
      && (s'.bootstrapped ==> vshard') && (Continues(v) <==> s'.bootstrapped)
      && (s.bootstrapped ==> s'.bootstrapped) && (vshard ==> vshard') && s'.leader == s.leader
  {
    BootstrapSucceedsIff(vshard, fate);
  }

  /**
  After a crash between the remote bootstrap and the status write, the next call that reaches
  cartridge sets the flag.
  */
  lemma BootstrapRecovers(s: Status, fate: BootstrapFate)
    requires fate.Reached?
    ensures Bootstrapping(s, true, fate) == (s.(bootstrapped := true), true, NEXT_STEP)
  {
    BootstrapSucceedsIff(true, fate);
  }

  class VShard {
    var bootstrapped: bool

    constructor (b: bool)
      ensures bootstrapped == b
    {
      bootstrapped := b;
    }

    method BootstrapVshard(fate: BootstrapFate) returns (err: Option<string>)
      modifies this
      ensures bootstrapped == Topology.BootstrapVshard(old(bootstrapped), fate).0
      ensures err == BootstrapError(Topology.BootstrapVshard(old(bootstrapped), fate).1)
    {
      var (b, reply) := Topology.BootstrapVshard(bootstrapped, fate);
      bootstrapped := b;
      err := BootstrapError(reply);
    }
  }

  method BootstrapStep(cluster: Cluster, topology: VShard, fate: BootstrapFate) returns (v: Verdict)
    modifies cluster, topology
    ensures (cluster.Value().status, topology.bootstrapped, v) ==
            Bootstrapping(old(cluster.Value().status), old(topology.bootstrapped), fate)
    ensures cluster.Value().base == old(cluster.Value().base)
  {
    if cluster.bootstrapped { return NEXT_STEP; }
    var err := topology.BootstrapVshard(fate);
    if err.Some? {
      if Contains(err.value, NO_ROUTER) || Contains(err.value, NO_STORAGE) {
        cluster.SetPhase(UnableToBootstrap);
        return COMPLETE;
      }
      return Error(err.value);
    }
    cluster.MarkBootstrapped();
    return NEXT_STEP;
  }

  /** `WaitForClusterBootstrappedStep`. */
  function WaitForBootstrapped(cluster: Option<Copy>): Verdict {
    if cluster.None? || !cluster.value.status.bootstrapped then Requeue(10) else NEXT_STEP
  }

  /** A cluster that is known to be bootstrapped lets the run go on; without one it is tried again soon. */
  lemma WaitByCluster(cluster: Option<Copy>)
    ensures WaitForBootstrapped(cluster) == NEXT_STEP <==> cluster.Some? && cluster.value.status.bootstrapped
    ensures WaitForBootstrapped(cluster) != NEXT_STEP ==> WaitForBootstrapped(cluster) == Requeue(10)
  {}

  // ---------------------------------------------------------------- counting ready pods

  /** The pods that count as ready: running, not being deleted, cartridge started. */
  function ReadyCount(pods: seq<PodView>): (n: nat)
    ensures n <= |pods|
  {
    if |pods| == 0 then 0
    else ReadyCount(pods[..|pods| - 1]) + if CanBeLeader(pods[|pods| - 1], false) == Ok(true) then 1 else 0
  }

  /** What is counted are the pods that are running, not being deleted, and in which cartridge has started. */
  lemma {:induction false} ReadyCountByPods(pods: seq<PodView>)
    ensures ReadyCount(pods) == |set i | 0 <= i < |pods| && ReadyToLead(pods[i], false)|
  {
    if |pods| == 0 {
    } else {
      var most, last := pods[..|pods| - 1], |pods| - 1;
      ReadyCountByPods(most);
      var before := set i | 0 <= i < |most| && ReadyToLead(most[i], false);
      var now := set i | 0 <= i < |pods| && ReadyToLead(pods[i], false);
      assert forall i | 0 <= i < last :: most[i] == pods[i];
      if ReadyToLead(pods[last], false) {
        assert now == before + {last} && last !in before;
      } else {
        assert now == before;
      }
    }
  }

  /** The number of pods the gate waits for, as the code computes it in 32 bits. */
  function ExpectedCount(role: RoleShape): int32 { Wrap32(role.replicasets * role.replicas) }

  /** A probe that has to be made fails. */
  predicate SomeProbeFails(pods: seq<PodView>) {
    exists p | p in pods :: CanBeLeader(p, false).Err?
  }

  /** A probe has to be made of the pods that are running and not being deleted, and of those one fails. */
  lemma FailingProbeByPods(pods: seq<PodView>)
    ensures SomeProbeFails(pods) <==>
      exists i :: 0 <= i < |pods| && pods[i].running && !pods[i].deleting && pods[i].started == ProbeFails
  {
    if SomeProbeFails(pods) {
      var p :| p in pods && CanBeLeader(p, false).Err?;
      var i :| 0 <= i < |pods| && pods[i] == p;
    }
    if i :| 0 <= i < |pods| && pods[i].running && !pods[i].deleting && pods[i].started == ProbeFails {
      assert pods[i] in pods;
    }
  }

  /** The gate opens: enough pods are listed and ready, and no probe fails. */
  predicate GateOpens(role: RoleShape, pods: seq<PodView>) {
    ExpectedCount(role) <= |pods| && !SomeProbeFails(pods) && ReadyCount(pods) >= ExpectedCount(role)
  }

  /** `SetReadyPodsCount`: what the status shows, with the product of the two counts as computed. */
  function ReadyPods(role: RoleShape, count: int): string {
    Names.Print(count) + "/" + Names.Print(ExpectedCount(role))
  }

  /** A Kubernetes list holds fewer than 2^31 pods. */
  method IsCartridgeReady(role: RoleShape, pods: seq<PodView>)
    returns (r: Result<bool, string>, readyPods: Option<string>)
    requires |pods| < 0x8000_0000
    ensures r == Ok(true) <==> GateOpens(role, pods)
    ensures r.Err? <==> ExpectedCount(role) <= |pods| && SomeProbeFails(pods)
    ensures readyPods == if ExpectedCount(role) > |pods| || SomeProbeFails(pods) then None
                         else Some(ReadyPods(role, ReadyCount(pods)))
  {
    var expectedCount := Wrap32(role.replicasets * role.replicas);
    if expectedCount > |pods| { return Ok(false), None; }
    var readyCount := 0;
    for k := 0 to |pods|
      invariant readyCount == ReadyCount(pods[..k])
      invariant !SomeProbeFails(pods[..k])
    {
      assert pods[..k + 1][..k] == pods[..k] && pods[..k + 1] == pods[..k] + [pods[k]];
      if pods[k].deleting || !pods[k].running { continue; }
      if pods[k].started.ProbeFails? {
        assert CanBeLeader(pods[k], false).Err?;
        return Err("probe"), None;
      }
      if pods[k].started.No? { continue; }
      readyCount := readyCount + 1;
    }
    assert pods[..|pods|] == pods;
    return Ok(readyCount >= expectedCount), Some(ReadyPods(role, readyCount));
  }

  /** The shown text tells both numbers. */
  lemma ReadyPodsReadBack(role: RoleShape, count: int32)
    ensures var shown, n := ReadyPods(role, count), |Names.Print(count)|;
      && n < |shown| && shown[n] == '/'
      && Names.ParseInt32(shown[..n]) == Some(count)
      && Names.ParseInt32(shown[n + 1..]) == Some(ExpectedCount(role))
  {
    var shown, n := ReadyPods(role, count), |Names.Print(count)|;
    assert shown[..n] == Names.Print(count) && shown[n + 1..] == Names.Print(ExpectedCount(role));
    Names.ParseOfPrint(count);
    Names.ParseOfPrint(ExpectedCount(role));
  }

  /** `EnsureCartridgeReadyStep`: a closed gate is tried again soon, a failing probe is an error. */
  method EnsureCartridgeReady(role: RoleShape, pods: seq<PodView>) returns (v: Verdict)
    requires |pods| < 0x8000_0000
    ensures v == NEXT_STEP <==> GateOpens(role, pods)
    ensures v == Requeue(10) <==> !GateOpens(role, pods) && (ExpectedCount(role) > |pods| || !SomeProbeFails(pods))
    ensures v.err.Some? <==> ExpectedCount(role) <= |pods| && SomeProbeFails(pods)
  {
    var r, _ := IsCartridgeReady(role, pods);
    if r.Err? { return Error("probe"); }
    return if r.value then NEXT_STEP else Requeue(10);
  }

  lemma {:induction false} AllReady(pods: seq<PodView>)
    requires forall i | 0 <= i < |pods| :: pods[i] == PodView(false, true, Yes, Yes)
    ensures ReadyCount(pods) == |pods| && !SomeProbeFails(pods)
  {
    if |pods| == 0 {
    } else {
      assert pods[|pods| - 1] == PodView(false, true, Yes, Yes);
      AllReady(pods[..|pods| - 1]);
    }
  }

  /**
  The gate keeps its promise, as many ready pods as the role asks for, exactly when the
  product of the two counts is negative or fits an int32.
  */
  lemma ReadyGateIsSoundIff(role: RoleShape)
    ensures (forall pods: seq<PodView> :: GateOpens(role, pods) ==>
             ReadyCount(pods) >= role.replicasets * role.replicas)
            <==> role.replicasets * role.replicas < 0x8000_0000
  {
    var exact := role.replicasets * role.replicas;
    if exact >= 0x8000_0000 {
      var expected: nat := if ExpectedCount(role) < 0 then 0 else ExpectedCount(role);
      var k: int :| exact == ExpectedCount(role) + k * 0x1_0000_0000;
      var pods := seq(expected, i => PodView(false, true, Yes, Yes));
      AllReady(pods);
      assert GateOpens(role, pods) && ReadyCount(pods) < exact;
    }
  }

  /** 65536 replicasets of 65536 replicas: the product wraps to zero and the gate opens on no pods at all. */
  lemma ReadyGateOverflows()
    ensures GateOpens(RoleShape("storage", 0x1_0000, 0x1_0000), [])
  {
    assert 0x1_0000 * 0x1_0000 == 0x1_0000_0000;
  }
}
