/**
The rules of the protocol leave room for what it is for: a run that begins with nothing
joined and ends with a bootstrapped cluster and a role at Ready. The reply to the first
join gets lost on the way, so the founder is asked to join itself a second time.
*/
module ProtocolWitness {
  import opened Basics
  import opened ClusterStatus
  import opened Election
  import opened Topology
  import opened Verdicts
  import opened Gates
  import opened Protocol
  import opened ProtocolInvariant
  import opened ProtocolTheorems
  import J = Joining
  import Names
  import S = Steps

  const STORAGE := RoleShape("storage", 1, 1)
  const SETUP := Setup("", map["storage" := STORAGE])
  const ROLE := RoleKind("storage")

  const START :=
      World([Status(Unset, false, "")], map["storage" := [Unset]], Remote({}, {}, false), map[], "", {}, [], [])

  /** The one instance the role asks for. */
  function Pod(): string { Names.PodName("storage", 0, 0) }

  // ---------------------------------------------------------------- states that moves lead to

  ghost predicate ClosedUnderMoves(good: World -> bool) {
    good(START) && forall w: World, m: Move | good(w) :: good(Apply(SETUP, w, m))
  }

  /** The state is in every set of states that holds the first one and that no move leaves. */
  ghost predicate Arises(w: World) {
    forall good: World -> bool | ClosedUnderMoves(good) :: good(w)
  }

  lemma StartArises()
    ensures Arises(START)
  {}

  lemma NextArises(w: World, m: Move)
    requires Arises(w)
    ensures Arises(Apply(SETUP, w, m))
  {}

  lemma ArisingIsReachable(w: World)
    requires Arises(w)
    ensures Reachable(SETUP, w)
  {
    var good := (u: World) => Reachable(SETUP, u);
    assert Run(SETUP, START, []) == START && ReachableFrom(SETUP, START, START);
    forall u: World, m: Move | good(u)
      ensures good(Apply(SETUP, u, m))
    {
      ReachableNext(SETUP, u, m);
    }
    assert ClosedUnderMoves(good);
  }

  // ---------------------------------------------------------------- one reconcile at a time

  /** The world with this one reconcile in flight. */
  function With(w: World, r: Rec): World { w.(recs := map[0 := r]) }

  function Alone(w: World): World { w.(recs := map[]) }

  lemma Begins(w: World, kind: Kind)
    requires Arises(Alone(w)) && (kind.RoleKind? ==> kind.role in SETUP.roles)
    ensures Arises(With(w, Fresh(kind)))
  {
    NextArises(Alone(w), Begin(0, kind));
    assert map[][0 := Fresh(kind)] == map[0 := Fresh(kind)];
  }

  lemma Takes(w: World, r: Rec, input: Input, w': World, r': Rec)
    requires Arises(With(w, r)) && !r.done && RecStep(SETUP, With(w, r), r, input) == (With(w', r), r')
    ensures Arises(With(w', r'))
  {
    NextArises(With(w, r), Go(0, input));
    assert map[0 := r][0 := r'] == map[0 := r'];
  }

  lemma Finishes(w: World, r: Rec, w': World)
    requires Arises(With(w, r)) && r.done && Finished(With(w, r), r, NoFault) == With(w', r)
    ensures Arises(Alone(w'))
  {
    NextArises(With(w, r), Finish(0, NoFault));
    assert map[0 := r] - {0} == map[];
  }

  /** Steps that any reconcile may pass. */
  predicate Easy(step: S.Step) { !step.Check? || PlainGate(step.gate) }

  function AfterStep(r: Rec, step: S.Step): Rec { if step.Check? then Advance(r) else LocalStep(r, step) }

  lemma EasyStep(w: World, r: Rec)
    requires r.pc < |StepsOf(r.kind)| && Easy(StepsOf(r.kind)[r.pc])
    ensures RecStep(SETUP, w, r, Pass) == (w, AfterStep(r, StepsOf(r.kind)[r.pc]))
  {
    var step := StepsOf(r.kind)[r.pc];
    if step.Check? { PlainGateIs(SETUP, w, r, step.gate, Pass); }
  }

  lemma Passes(w: World, r: Rec, r': Rec)
    requires Arises(With(w, r)) && !r.done && r.pc < |StepsOf(r.kind)|
    requires Easy(StepsOf(r.kind)[r.pc]) && r' == AfterStep(r, StepsOf(r.kind)[r.pc])
    ensures Arises(With(w, r'))
  {
    EasyStep(With(w, r), r);
    Takes(w, r, Pass, w, r');
  }

  // ---------------------------------------------------------------- a reconcile of the role

  function RoleRec(own: nat, pc: nat, phase: Phase, copy: Option<Copy>, leader: string): Rec {
    Rec(ROLE, pc, false, true, own, phase, copy, leader, [], None)
  }

  lemma RoleReadsItself(w: World, own: nat)
    requires Arises(Alone(w)) && "storage" in w.roles && own < |w.roles["storage"]|
    ensures Arises(With(w, RoleRec(own, 4, WaitingForCluster, None, "")))
  {
    var phase := w.roles["storage"][own];
    Begins(w, ROLE);
    Passes(w, Fresh(ROLE), Advance(Fresh(ROLE)));
    Takes(w, Advance(Fresh(ROLE)), Read(own), w, RoleRec(own, 2, phase, None, ""));
    Passes(w, RoleRec(own, 2, phase, None, ""), RoleRec(own, 3, Unset, None, ""));
    Passes(w, RoleRec(own, 3, Unset, None, ""), RoleRec(own, 4, WaitingForCluster, None, ""));
  }

  lemma RoleReadsCluster(w: World, own: nat, v: nat)
    requires Arises(With(w, RoleRec(own, 4, WaitingForCluster, None, ""))) && v < |w.versions|
    ensures Arises(With(w, RoleRec(own, 9, WaitingForLeader, Some(Copy(v, w.versions[v])), "")))
  {
    var waiting, copy := RoleRec(own, 4, WaitingForCluster, None, ""), Some(Copy(v, w.versions[v]));
    GetClusterIs(SETUP, With(w, waiting), waiting, Read(v));
    Takes(w, waiting, Read(v), w, RoleRec(own, 5, WaitingForCluster, copy, ""));
    RoleManagesSets(w, own, copy);
  }

  lemma RoleManagesSets(w: World, own: nat, copy: Option<Copy>)
    requires Arises(With(w, RoleRec(own, 5, WaitingForCluster, copy, "")))
    ensures Arises(With(w, RoleRec(own, 9, WaitingForLeader, copy, "")))
  {
    Passes(w, RoleRec(own, 5, WaitingForCluster, copy, ""), RoleRec(own, 6, Pending, copy, ""));
    Passes(w, RoleRec(own, 6, Pending, copy, ""), RoleRec(own, 7, Pending, copy, ""));
    Passes(w, RoleRec(own, 7, Pending, copy, ""), RoleRec(own, 8, Pending, copy, ""));
    Passes(w, RoleRec(own, 8, Pending, copy, ""), RoleRec(own, 9, WaitingForLeader, copy, ""));
  }

  /** From the leader gate to the join gate. */
  lemma RoleReachesJoin(w: World, own: nat, copy: Option<Copy>, leader: string)
    requires Arises(With(w, RoleRec(own, 10, WaitingForLeader, copy, leader)))
    ensures Arises(With(w, RoleRec(own, 13, Joining, copy, leader)))
  {
    Passes(w, RoleRec(own, 10, WaitingForLeader, copy, leader), RoleRec(own, 11, WaitForCartridgeReady, copy, leader));
    Passes(w, RoleRec(own, 11, WaitForCartridgeReady, copy, leader),
           RoleRec(own, 12, WaitForCartridgeReady, copy, leader));
    Passes(w, RoleRec(own, 12, WaitForCartridgeReady, copy, leader), RoleRec(own, 13, Joining, copy, leader));
  }

  /** From the join gate to the bootstrap gate. */
  lemma RoleConfigures(w: World, own: nat, copy: Option<Copy>, leader: string)
    requires Arises(With(w, RoleRec(own, 14, Joining, copy, leader)))
    ensures Arises(With(w, RoleRec(own, 17, WaitingForBootstrap, copy, leader)))
  {
    Passes(w, RoleRec(own, 14, Joining, copy, leader), RoleRec(own, 15, Configuring, copy, leader));
    Passes(w, RoleRec(own, 15, Configuring, copy, leader), RoleRec(own, 16, Configuring, copy, leader));
    Passes(w, RoleRec(own, 16, Configuring, copy, leader), RoleRec(own, 17, WaitingForBootstrap, copy, leader));
  }

  /** From the bootstrap gate to the end of the list. */
  lemma RoleGetsReady(w: World, own: nat, copy: Copy, leader: string)
    requires Arises(With(w, RoleRec(own, 17, WaitingForBootstrap, Some(copy), leader))) && copy.status.bootstrapped
    ensures Arises(With(w, Over(RoleRec(own, 22, Ready, Some(copy), leader))))
  {
    var waiting := RoleRec(own, 17, WaitingForBootstrap, Some(copy), leader);
    WaitGateIs(SETUP, With(w, waiting), waiting, Pass);
    Takes(w, waiting, Pass, w, RoleRec(own, 18, WaitingForBootstrap, Some(copy), leader));
    Passes(w, RoleRec(own, 18, WaitingForBootstrap, Some(copy), leader),
           RoleRec(own, 19, ConfiguringWeights, Some(copy), leader));
    RoleSetsWeights(w, own, Some(copy), leader);
  }

  lemma RoleSetsWeights(w: World, own: nat, copy: Option<Copy>, leader: string)
    requires Arises(With(w, RoleRec(own, 19, ConfiguringWeights, copy, leader)))
    ensures Arises(With(w, Over(RoleRec(own, 22, Ready, copy, leader))))
  {
    Passes(w, RoleRec(own, 19, ConfiguringWeights, copy, leader), RoleRec(own, 20, ConfiguringWeights, copy, leader));
    Passes(w, RoleRec(own, 20, ConfiguringWeights, copy, leader), RoleRec(own, 21, Ready, copy, leader));
    Passes(w, RoleRec(own, 21, Ready, copy, leader), RoleRec(own, 22, Ready, copy, leader));
    Takes(w, RoleRec(own, 22, Ready, copy, leader), Pass, w, Over(RoleRec(own, 22, Ready, copy, leader)));
  }

  // ---------------------------------------------------------------- the gates

  const FIRST := Status(Unset, false, "")

  function Named(): Status { Status(Unset, false, Pod()) }

  /** The instance is running with cartridge started; whether it is configured depends on the time. */
  function Seen(configured: Probe): Pods { map[Pod() := Found(PodView(false, true, Yes, configured))] }

  lemma SearchFindsPod()
    ensures FindNewLeader(Some([STORAGE]), Query("", false, Seen(No))) == Ok(Pod())
  {
    var q := Query("", false, Seen(No));
    SearchStopsAtFirst([STORAGE], q);
    assert NameOf([STORAGE], Triple(0, 0, 0)) == Pod();
    assert StopsAt([STORAGE], Triple(0, 0, 0), q);
  }

  lemma PodIsElected()
    ensures Election.GetLeader("", Some([STORAGE]), Seen(No), [FIRST], Copy(0, FIRST), NoFault) ==
            Elected([FIRST, Named()], Copy(1, Named()), Ok(Pod()))
  {
    SearchFindsPod();
  }

  /** The world once the first leader is elected. */
  function Led(): World { START.(versions := [FIRST, Named()], founder := Pod()) }

  lemma RoleElects()
    requires Arises(With(START, RoleRec(0, 9, WaitingForLeader, Some(Copy(0, FIRST)), "")))
    ensures Arises(With(Led(), RoleRec(0, 10, WaitingForLeader, Some(Copy(1, Named())), Pod())))
  {
    var r := RoleRec(0, 9, WaitingForLeader, Some(Copy(0, FIRST)), "");
    var input := Input.Answer(Some([STORAGE]), Seen(No), NoFault);
    PodIsElected();
    LeaderGateIs(SETUP, With(START, r), r, input);
    assert StepsOf(ROLE)[9] == S.Check(S.GetLeader);
    Takes(START, r, input, Led(), RoleRec(0, 10, WaitingForLeader, Some(Copy(1, Named())), Pod()));
  }

  /** A leader that is named and fit is used. */
  lemma LeaderIsLoaded(w: World, r: Rec, configured: Probe)
    requires r.copy.Some? && r.copy.value.status.leader == Pod()
    requires CanBeLeader(PodView(false, true, Yes, configured), r.copy.value.status.bootstrapped) == Ok(true)
    requires configured.Yes? ==> Pod() in w.remote.booted
    requires |w.versions| > 0 && w.founder != ""
    ensures TakeStep(SETUP, w, r, S.Check(S.GetLeader), Input.Answer(None, Seen(configured), NoFault)) ==
            (w, Advance(r.(leader := Pod())))
  {
    var copy := r.copy.value;
    LeaderGateIs(SETUP, w, r, Input.Answer(None, Seen(configured), NoFault));
    FitLeaderIsKept("", None, Seen(configured), w.versions, copy, NoFault);
    assert r.(copy := Some(copy)) == r;
  }

  lemma RoleUsesLeader(w: World, own: nat, copy: Copy, configured: Probe)
    requires Arises(With(w, RoleRec(own, 9, WaitingForLeader, Some(copy), ""))) && copy.status.leader == Pod()
    requires CanBeLeader(PodView(false, true, Yes, configured), copy.status.bootstrapped) == Ok(true)
    requires configured.Yes? ==> Pod() in w.remote.booted
    requires |w.versions| > 0 && w.founder != ""
    ensures Arises(With(w, RoleRec(own, 10, WaitingForLeader, Some(copy), Pod())))
  {
    var r := RoleRec(own, 9, WaitingForLeader, Some(copy), "");
    LeaderIsLoaded(With(w, r), r, configured);
    assert StepsOf(ROLE)[9] == S.Check(S.GetLeader);
    Takes(w, r, Input.Answer(None, Seen(configured), NoFault), w,
          RoleRec(own, 10, WaitingForLeader, Some(copy), Pod()));
  }

  // ---------------------------------------------------------------- the join loops

  const LISTS := [J.Listed([J.Item(Names.ReplicasetName("storage", 0), false)])]

  /** The loops over the only pod there is. */
  function Looping(own: nat, copy: Copy, cursor: nat, calling: bool): Rec {
    RoleRec(own, 13, Joining, Some(copy), Pod()).(loops := Some(Loops([J.PodVisit(0, Pod())], cursor, true, calling)))
  }

  lemma WalkIs()
    ensures J.Walk(STORAGE, LISTS) == [J.PodVisit(0, Pod())]
  {
    assert J.WalkFrom(STORAGE, LISTS, 0, 1, 0) == J.WalkFrom(STORAGE, LISTS, 1, 0, 0) == [];
    assert J.WalkFrom(STORAGE, LISTS, 0, 0, 1) == [];
  }

  /** A move at the join gate. */
  lemma Joins(w: World, r: Rec, input: Input, w': World, r': Rec)
    requires Arises(With(w, r)) && !r.done && r.kind == ROLE && r.pc == 13 && r.copy.Some?
    requires JoinGate(SETUP, With(w, r), r, STORAGE, ConfigError, input) == (With(w', r), r')
    ensures Arises(With(w', r'))
  {
    JoinGateIs(SETUP, With(w, r), r, input);
    assert StepsOf(ROLE)[13] == S.Check(S.JoinInstances(ConfigError));
    Takes(w, r, input, w', r');
  }

  lemma RoleStartsLoops(w: World, own: nat, copy: Copy)
    requires Arises(With(w, RoleRec(own, 13, Joining, Some(copy), Pod())))
    ensures Arises(With(w, Looping(own, copy, 0, false)))
  {
    WalkIs();
    Joins(w, RoleRec(own, 13, Joining, Some(copy), Pod()), Lists(LISTS), w, Looping(own, copy, 0, false));
  }

  lemma RoleLooks(w: World, own: nat, copy: Copy)
    requires Arises(With(w, Looping(own, copy, 0, false)))
    ensures Arises(With(w, if Pod() in w.remote.booted then Looping(own, copy, 1, false)
                        else Looping(own, copy, 0, true)))
  {
    Joins(w, Looping(own, copy, 0, false), Looked(J.Answers(Seen(No), {}, map[])), w,
          if Pod() in w.remote.booted then Looping(own, copy, 1, false) else Looping(own, copy, 0, true));
  }

  /** The call takes effect, but its reply is lost: the reconcile is over. */
  lemma ReplyIsLost(w: World, own: nat, copy: Copy)
    requires Arises(With(w, Looping(own, copy, 0, true)))
    ensures var remote := Remote(w.remote.joined + {Pod()}, w.remote.booted, w.remote.vshard);
      var call := JoinCall(Pod(), Pod(), copy.status.bootstrapped, w.remote, remote);
      Arises(With(w.(remote := remote, joins := w.joins + [call]), Over(RoleRec(own, 13, Joining, Some(copy), Pod()))))
  {
    var remote := Remote(w.remote.joined + {Pod()}, w.remote.booted, w.remote.vshard);
    var call := JoinCall(Pod(), Pod(), copy.status.bootstrapped, w.remote, remote);
    assert w.remote.booted + {} == w.remote.booted;
    Joins(w, Looping(own, copy, 0, true), Replied(JoinAnswer(TransportFails(""), true, false)),
          w.(remote := remote, joins := w.joins + [call]), Over(RoleRec(own, 13, Joining, Some(copy), Pod())));
  }

  /** The call succeeds and the instance boots. */
  lemma ReplyArrives(w: World, own: nat, copy: Copy)
    requires Arises(With(w, Looping(own, copy, 0, true)))
    ensures var remote := Remote(w.remote.joined + {Pod()}, w.remote.booted + {Pod()}, w.remote.vshard);
      var call := JoinCall(Pod(), Pod(), copy.status.bootstrapped, w.remote, remote);
      Arises(With(w.(remote := remote, joins := w.joins + [call]), Looping(own, copy, 1, false)))
  {
    var remote := Remote(w.remote.joined + {Pod()}, w.remote.booted + {Pod()}, w.remote.vshard);
    var call := JoinCall(Pod(), Pod(), copy.status.bootstrapped, w.remote, remote);
    Joins(w, Looping(own, copy, 0, true), Replied(JoinAnswer(Reply.Answer(true, None), true, true)),
          w.(remote := remote, joins := w.joins + [call]), Looping(own, copy, 1, false));
  }

  lemma RoleLeavesLoops(w: World, own: nat, copy: Copy)
    requires Arises(With(w, Looping(own, copy, 1, false)))
    ensures Arises(With(w, RoleRec(own, 14, Joining, Some(copy), Pod())))
  {
    Joins(w, Looping(own, copy, 1, false), Pass, w, RoleRec(own, 14, Joining, Some(copy), Pod()));
  }

  // ---------------------------------------------------------------- a reconcile of the cluster

  function ClusterRec(pc: nat, status: Status, listed: seq<RoleItem>, leader: string): Rec {
    Rec(ClusterKind, pc, false, true, 0, Unset, Some(Copy(1, status)), leader, listed, None)
  }

  function At(p: Phase): Status { Named().(phase := p) }

  lemma ClusterReadsItself(w: World)
    requires Arises(Alone(w)) && |w.versions| == 2 && w.versions[1] == Named()
    ensures Arises(With(w, ClusterRec(4, At(Pending), [], "")))
  {
    Begins(w, ClusterKind);
    Passes(w, Fresh(ClusterKind), Advance(Fresh(ClusterKind)));
    Takes(w, Advance(Fresh(ClusterKind)), Read(1), w, ClusterRec(2, Named(), [], ""));
    ClusterIsNotDeleted(w);
  }

  lemma ClusterIsNotDeleted(w: World)
    requires Arises(With(w, ClusterRec(2, Named(), [], "")))
    ensures Arises(With(w, ClusterRec(4, At(Pending), [], "")))
  {
    Passes(w, ClusterRec(2, Named(), [], ""), ClusterRec(3, At(Pending), [], ""));
    Passes(w, ClusterRec(3, At(Pending), [], ""), ClusterRec(4, At(Pending), [], ""));
  }

  lemma ClusterSyncs(w: World)
    requires Arises(With(w, ClusterRec(4, At(Pending), [], "")))
    ensures Arises(With(w, ClusterRec(8, At(WaitingForRoles), [], "")))
  {
    Passes(w, ClusterRec(4, At(Pending), [], ""), ClusterRec(5, At(Unset), [], ""));
    Passes(w, ClusterRec(5, At(Unset), [], ""), ClusterRec(6, At(SyncingService), [], ""));
    Passes(w, ClusterRec(6, At(SyncingService), [], ""), ClusterRec(7, At(SyncingService), [], ""));
    Passes(w, ClusterRec(7, At(SyncingService), [], ""), ClusterRec(8, At(WaitingForRoles), [], ""));
  }

  const ITEMS := [RoleItem("storage", WaitingForBootstrap)]

  lemma ClusterSeesRoles(w: World)
    requires Arises(With(w, ClusterRec(8, At(WaitingForRoles), [], "")))
    requires "storage" in w.roles && WaitingForBootstrap in w.roles["storage"]
    ensures Arises(With(w, ClusterRec(11, At(WaitingForLeader), ITEMS, "")))
  {
    var r := ClusterRec(8, At(WaitingForRoles), [], "");
    RolesGateIs(SETUP, With(w, r), r, [WaitingForBootstrap, Ready], Views([Roles(ITEMS)]));
    assert StepsOf(ClusterKind)[8] == S.Check(S.WaitForRoles([WaitingForBootstrap, Ready]));
    Takes(w, r, Views([Roles(ITEMS)]), w, ClusterRec(9, At(WaitingForRoles), ITEMS, ""));
    Passes(w, ClusterRec(9, At(WaitingForRoles), ITEMS, ""), ClusterRec(10, At(WaitingForRoles), ITEMS, ""));
    Passes(w, ClusterRec(10, At(WaitingForRoles), ITEMS, ""), ClusterRec(11, At(WaitingForLeader), ITEMS, ""));
  }

  /** The status once the flag is set. */
  function Flagged(p: Phase): Status { Status(p, true, Pod()) }

  lemma ClusterBootstraps(w: World)
    requires Arises(With(w, ClusterRec(11, At(WaitingForLeader), ITEMS, ""))) && |w.versions| > 0 && w.founder != ""
             && !w.remote.vshard
    ensures Arises(With(w.(remote := w.remote.(vshard := true),
                           bootstraps := w.bootstraps + [BootstrapCall(Pod(), ITEMS, w.remote.joined)]),
                        ClusterRec(13, Flagged(WaitingForLeader), ITEMS, Pod())))
  {
    var r := ClusterRec(11, At(WaitingForLeader), ITEMS, "");
    LeaderIsLoaded(With(w, r), r, No);
    assert StepsOf(ClusterKind)[11] == S.Check(S.GetLeader);
    var r' := ClusterRec(12, At(WaitingForLeader), ITEMS, Pod());
    Takes(w, r, Input.Answer(None, Seen(No), NoFault), w, r');
    BootstrapGateIs(SETUP, With(w, r'), r', Reached(None));
    Takes(w, r', Fate(Reached(None)),
          w.(remote := w.remote.(vshard := true),
             bootstraps := w.bootstraps + [BootstrapCall(Pod(), ITEMS, w.remote.joined)]),
          ClusterRec(13, Flagged(WaitingForLeader), ITEMS, Pod()));
  }

  lemma ClusterGetsReady(w: World)
    requires Arises(With(w, ClusterRec(13, Flagged(WaitingForLeader), ITEMS, Pod())))
    ensures Arises(With(w, Over(ClusterRec(17, Flagged(Ready), ITEMS, Pod()))))
  {
    Passes(w, ClusterRec(13, Flagged(WaitingForLeader), ITEMS, Pod()),
           ClusterRec(14, Flagged(FailoverConfiguring), ITEMS, Pod()));
    Passes(w, ClusterRec(14, Flagged(FailoverConfiguring), ITEMS, Pod()),
           ClusterRec(15, Flagged(FailoverConfiguring), ITEMS, Pod()));
    Passes(w, ClusterRec(15, Flagged(FailoverConfiguring), ITEMS, Pod()), ClusterRec(16, Flagged(Ready), ITEMS, Pod()));
    Passes(w, ClusterRec(16, Flagged(Ready), ITEMS, Pod()), ClusterRec(17, Flagged(Ready), ITEMS, Pod()));
    Takes(w, ClusterRec(17, Flagged(Ready), ITEMS, Pod()), Pass, w, Over(ClusterRec(17, Flagged(Ready), ITEMS, Pod())));
  }

  // ---------------------------------------------------------------- the run

  /** The role's new phase is persisted. */
  lemma RoleFinishes(w: World, r: Rec, h: seq<Phase>)
    requires Arises(With(w, r)) && r.done && r.kind == ROLE && r.fetched
    requires w.roles == map["storage" := h] && |h| > 0 && r.own == |h| - 1 && h[r.own] != r.phase
    ensures Arises(Alone(w.(roles := map["storage" := h + [r.phase]])))
  {
    assert map["storage" := h]["storage" := h + [r.phase]] == map["storage" := h + [r.phase]];
    Finishes(w, r, w.(roles := map["storage" := h + [r.phase]]));
  }

  function Called(before: Remote, after: Remote): JoinCall { JoinCall(Pod(), Pod(), false, before, after) }

  const NOTHING := Remote({}, {}, false)

  function Joined(): Remote { Remote({Pod()}, {}, false) }

  function Booted(): Remote { Remote({Pod()}, {Pod()}, false) }

  /** After the first reconcile of the role: its instance is joined, but nobody heard of it. */
  function JoinedOnce(): World {
    Led().(remote := Joined(), joins := [Called(NOTHING, Joined())], roles := map["storage" := [Unset, Joining]])
  }

  lemma FirstReconcile()
    ensures Arises(Alone(JoinedOnce()))
  {
    StartArises();
    assert Alone(START) == START;
    RoleReadsItself(START, 0);
    RoleReadsCluster(START, 0, 0);
    RoleElects();
    FirstReconcileJoins();
  }

  lemma FirstReconcileJoins()
    requires Arises(With(Led(), RoleRec(0, 10, WaitingForLeader, Some(Copy(1, Named())), Pod())))
    ensures Arises(Alone(JoinedOnce()))
  {
    var copy := Copy(1, Named());
    RoleReachesJoin(Led(), 0, Some(copy), Pod());
    RoleStartsLoops(Led(), 0, copy);
    RoleLooks(Led(), 0, copy);
    ReplyIsLost(Led(), 0, copy);
    var w := Led().(remote := Joined(), joins := [Called(NOTHING, Joined())]);
    assert {} + {Pod()} == {Pod()} && [] + [Called(NOTHING, Joined())] == [Called(NOTHING, Joined())];
    RoleFinishes(w, Over(RoleRec(0, 13, Joining, Some(copy), Pod())), [Unset]);
    assert [Unset] + [Joining] == [Unset, Joining];
  }

  /** After the second one: the founder was asked again, and the role waits for bootstrap. */
  function JoinedTwice(): World {
    JoinedOnce().(remote := Booted(), joins := [Called(NOTHING, Joined()), Called(Joined(), Booted())],
                  roles := map["storage" := [Unset, Joining, WaitingForBootstrap]])
  }

  lemma SecondReconcile()
    ensures Arises(Alone(JoinedTwice()))
  {
    var w, copy := JoinedOnce(), Copy(1, Named());
    FirstReconcile();
    RoleReadsItself(w, 1);
    RoleReadsCluster(w, 1, 1);
    RoleUsesLeader(w, 1, copy, No);
    RoleReachesJoin(w, 1, Some(copy), Pod());
    SecondReconcileJoins();
  }

  lemma SecondReconcileJoins()
    requires Arises(With(JoinedOnce(), RoleRec(1, 13, Joining, Some(Copy(1, Named())), Pod())))
    ensures Arises(Alone(JoinedTwice()))
  {
    var w, copy := JoinedOnce(), Copy(1, Named());
    RoleStartsLoops(w, 1, copy);
    RoleLooks(w, 1, copy);
    ReplyArrives(w, 1, copy);
    var w' := w.(remote := Booted(), joins := [Called(NOTHING, Joined()), Called(Joined(), Booted())]);
    assert {Pod()} + {Pod()} == {Pod()} && {} + {Pod()} == {Pod()};
    assert w.joins + [Called(Joined(), Booted())] == w'.joins;
    RoleLeavesLoops(w', 1, copy);
    RoleConfigures(w', 1, Some(copy), Pod());
    SecondReconcileWaits(w');
  }

  lemma SecondReconcileWaits(w: World)
    requires w == JoinedTwice().(roles := JoinedOnce().roles)
    requires Arises(With(w, RoleRec(1, 17, WaitingForBootstrap, Some(Copy(1, Named())), Pod())))
    ensures Arises(Alone(JoinedTwice()))
  {
    var r := RoleRec(1, 17, WaitingForBootstrap, Some(Copy(1, Named())), Pod());
    WaitGateIs(SETUP, With(w, r), r, Pass);
    assert StepsOf(ROLE)[17] == S.Check(S.WaitForBootstrapped);
    Takes(w, r, Pass, w, Over(r));
    RoleFinishes(w, Over(r), [Unset, Joining]);
    assert [Unset, Joining] + [WaitingForBootstrap] == [Unset, Joining, WaitingForBootstrap];
  }

  /** After a reconcile of the cluster. */
  function Bootstrapped(): World {
    JoinedTwice().(versions := [FIRST, Named(), Flagged(Ready)], remote := Booted().(vshard := true),
                   bootstraps := [BootstrapCall(Pod(), ITEMS, {Pod()})])
  }

  lemma ThirdReconcile()
    ensures Arises(Alone(Bootstrapped()))
  {
    var w := JoinedTwice();
    SecondReconcile();
    ClusterReadsItself(w);
    ClusterSyncs(w);
    ClusterSeesRoles(w);
    ClusterBootstraps(w);
    var w' := Bootstrapped().(versions := w.versions);
    assert [] + [BootstrapCall(Pod(), ITEMS, {Pod()})] == w'.bootstraps;
    ClusterGetsReady(w');
    Finishes(w', Over(ClusterRec(17, Flagged(Ready), ITEMS, Pod())), Bootstrapped());
  }

  /** After a last reconcile of the role. */
  function Done(): World {
    Bootstrapped().(roles := map["storage" := [Unset, Joining, WaitingForBootstrap, Ready]])
  }

  lemma FourthReconcile()
    ensures Arises(Alone(Done()))
  {
    var w, copy := Bootstrapped(), Copy(2, Flagged(Ready));
    ThirdReconcile();
    RoleReadsItself(w, 2);
    RoleReadsCluster(w, 2, 2);
    RoleUsesLeader(w, 2, copy, Yes);
    RoleReachesJoin(w, 2, Some(copy), Pod());
    FourthReconcileEnds();
  }

  lemma FourthReconcileEnds()
    requires Arises(With(Bootstrapped(), RoleRec(2, 13, Joining, Some(Copy(2, Flagged(Ready))), Pod())))
    ensures Arises(Alone(Done()))
  {
    var w, copy := Bootstrapped(), Copy(2, Flagged(Ready));
    RoleStartsLoops(w, 2, copy);
    RoleLooks(w, 2, copy);
    RoleLeavesLoops(w, 2, copy);
    RoleConfigures(w, 2, Some(copy), Pod());
    RoleGetsReady(w, 2, copy, Pod());
    var h := [Unset, Joining, WaitingForBootstrap];
    RoleFinishes(w, Over(RoleRec(2, 22, Ready, Some(copy), Pod())), h);
    assert h + [Ready] == [Unset, Joining, WaitingForBootstrap, Ready];
  }

  /** A role at Ready in a cluster that is persisted as bootstrapped is reachable. */
  lemma ReadyIsReachable()
    ensures Reachable(SETUP, Done())
    ensures Last(Done().versions) == Flagged(Ready) && Done().remote.vshard && |Done().bootstraps| == 1
    ensures Ready in Done().roles["storage"] && Pod() in Done().remote.booted
  {
    FourthReconcile();
    assert Alone(Done()) == Done();
    ArisingIsReachable(Done());
  }

  /**
  The exception to "every later join goes through an instance with a UUID" does occur: the
  second join call of this run is the founder's own again, without a UUID to go through.
  */
  lemma FounderMayBeAskedTwice()
    ensures Reachable(SETUP, Done()) && |Done().joins| == 2
    ensures var j := Done().joins[1];
      j.leader !in j.before.booted && j.pod == j.leader && j.before.joined != {} && !Effective(j)
  {
    ReadyIsReachable();
  }
}
