/** The invariant of the protocol and the proof that every move keeps it. */
module ProtocolInvariant {
  import opened Basics
  import opened ClusterStatus
  import opened Election
  import opened Topology
  import opened Verdicts
  import opened Gates
  import opened Protocol
  import Joining
  import Names
  import S = Steps

  // ---------------------------------------------------------------- vocabulary

  /** Every instance the role asks for is part of the topology. */
  ghost predicate AllInstancesJoined(shape: RoleShape, joined: set<string>) {
    forall o: nat, p: nat | o < shape.replicasets && p < shape.replicas :: Names.PodName(shape.name, o, p) in joined
  }

  /** A reconcile based on version i saw this pod exist and be unfit to lead a bootstrapped cluster. */
  ghost predicate SeenUnfit(w: World, i: nat, pod: string) {
    exists o :: o in w.unfit && o.version == i && o.pod == pod && CanBeLeader(o.view, true) == Ok(false)
  }

  /** What may stand in a copy of version i in place of its leader. */
  ghost predicate MayReplace(c: Setup, w: World, i: nat, leader: string)
    requires i < |w.versions|
  {
    var v := w.versions[i];
    || leader == v.leader
    || (leader != "" && v.leader == "")
    || (leader != "" && v.bootstrapped && SeenUnfit(w, i, EffectiveLeader(c.foreign, v)))
  }

  predicate PastBootstrap(p: Phase) { p == FailoverConfiguring || p == Ready }
  predicate PastJoin(p: Phase) { p == WaitingForBootstrap || p == ConfiguringWeights || p == Ready }
  predicate PastWait(p: Phase) { p == ConfiguringWeights || p == Ready }

  // ---------------------------------------------------------------- the invariant

  ghost predicate VersionsOk(c: Setup, w: World) {
    && (forall i: nat, j: nat | i <= j < |w.versions| :: w.versions[i].bootstrapped ==> w.versions[j].bootstrapped)
    && (forall i: nat, j: nat | i <= j < |w.versions| :: w.versions[i].leader != "" ==> w.versions[j].leader != "")
    && (forall i: nat | i < |w.versions| :: VersionOk(c, w, i))
    && (forall i: nat | i + 1 < |w.versions| :: SuccessionOk(c, w, i))
    && (c.foreign != "" ==> w.founder == c.foreign)
    && (c.foreign == "" ==> (w.founder == "" <==> Last(w.versions).leader == ""))
  }

  /** The next version keeps the leader, names the first one, or replaces one seen unfit after bootstrap. */
  ghost predicate SuccessionOk(c: Setup, w: World, i: nat)
    requires i + 1 < |w.versions|
  {
    MayReplace(c, w, i, w.versions[i + 1].leader)
  }

  ghost predicate VersionOk(c: Setup, w: World, i: nat)
    requires i < |w.versions|
  {
    var v := w.versions[i];
    var leader := EffectiveLeader(c.foreign, v);
    && (!v.bootstrapped && leader != "" ==> leader == w.founder)
    && (v.bootstrapped ==> w.remote.vshard && |w.bootstraps| > 0 && leader != "")
    && (PastBootstrap(v.phase) ==> v.bootstrapped)
  }

  ghost predicate RolesOk(c: Setup, w: World) {
    && w.roles.Keys == c.roles.Keys
    && forall role | role in w.roles ::
         |w.roles[role]| > 0 && forall p | p in w.roles[role] :: RolePhaseOk(c, w, role, p)
  }

  ghost predicate RolePhaseOk(c: Setup, w: World, role: string, p: Phase) {
    && role in c.roles
    && (PastJoin(p) ==> AllInstancesJoined(c.roles[role], w.remote.joined))
    && (PastWait(p) ==> Last(w.versions).bootstrapped)
  }

  ghost predicate RemoteOk(w: World) {
    && w.remote.booted <= w.remote.joined
    && (w.remote.joined <= {w.founder} || w.founder in w.remote.booted)
    && (w.founder == "" ==> w.remote.joined == {})
  }

  ghost predicate JoinOk(founder: string, j: JoinCall) {
    && founder != "" && j.before.booted <= j.before.joined
    && (!j.sawBootstrapped ==> j.leader == founder)
    && (j.leader in j.before.booted || (j.pod == j.leader == founder && j.before.joined <= {founder}))
  }

  ghost predicate ListedOk(c: Setup, listed: seq<RoleItem>, joined: set<string>) {
    && |listed| > 0
    && forall item | item in listed :: item.name in c.roles && AllInstancesJoined(c.roles[item.name], joined)
  }

  ghost predicate RecordOk(c: Setup, w: World) {
    && (forall j | j in w.joins :: JoinOk(w.founder, j))
    && (forall b | b in w.bootstraps :: ListedOk(c, b.listed, b.joined))
  }

  ghost predicate GlobalOk(c: Setup, w: World) {
    VersionsOk(c, w) && RolesOk(c, w) && RemoteOk(w) && RecordOk(c, w)
  }

  ghost predicate CopyOk(c: Setup, w: World, r: Rec)
    requires r.copy.Some?
  {
    var i, s := r.copy.value.base, r.copy.value.status;
    && i < |w.versions|
    && var v := w.versions[i];
    && (v.bootstrapped ==> s.bootstrapped)
    && (s.bootstrapped ==> w.remote.vshard && |w.bootstraps| > 0 && EffectiveLeader(c.foreign, s) != "")
    && (!r.kind.ClusterKind? || r.pc <= 12 ==> s.bootstrapped == v.bootstrapped)
    && (!r.kind.ClusterKind? || r.pc <= 2 ==> s.phase == v.phase)
    && (!r.done ==> s.leader == v.leader)
    && MayReplace(c, w, i, s.leader)
  }

  ghost predicate LeaderOk(c: Setup, w: World, r: Rec) {
    r.leader != "" ==>
      && w.founder != "" && r.copy.Some?
      && EffectiveLeader(c.foreign, r.copy.value.status) != ""
      && (!r.copy.value.status.bootstrapped ==> r.leader == w.founder)
      && (!r.kind.ClusterKind? && r.copy.value.status.bootstrapped ==> r.leader in w.remote.booted)
  }

  ghost predicate ClusterRecOk(c: Setup, w: World, r: Rec) {
    && r.loops.None?
    && (r.pc > 1 <==> r.copy.Some?)
    && (r.pc == 2 ==> !r.done)
    && (r.pc > 2 && PastBootstrap(r.copy.value.status.phase) ==> r.pc > 13)
    && (r.pc > 8 ==> ListedOk(c, r.listed, w.remote.joined))
    && (r.pc > 11 ==> r.leader != "")
    && (r.pc > 12 ==> r.copy.value.status.bootstrapped)
  }

  ghost predicate LoopsOk(w: World, shape: RoleShape, leader: string, l: Loops) {
    && l.cursor <= |l.walk|
    && (Joining.NoList in l.walk || forall o: nat, p: nat | o < shape.replicasets && p < shape.replicas ::
          Joining.PodVisit(o, Names.PodName(shape.name, o, p)) in l.walk)
    && (forall k | 0 <= k < l.cursor :: l.walk[k].PodVisit? && (l.allJoined ==> l.walk[k].pod in w.remote.joined))
    && (l.calling ==> l.cursor < |l.walk| && l.walk[l.cursor].PodVisit?)
    && (l.calling ==> leader in w.remote.booted || leader == l.walk[l.cursor].pod)
  }

  ghost predicate RoleRecOk(c: Setup, w: World, r: Rec)
    requires r.kind.RoleKind?
  {
    && r.kind.role in c.roles
    && var shape := c.roles[r.kind.role];
    && (r.pc > 1 <==> r.fetched)
    && (r.pc == 2 ==> !r.done)
    && (r.pc > 2 && PastJoin(r.phase) ==> r.pc > 16)
    && (r.pc > 2 && PastWait(r.phase) ==> r.pc > 18)
    && (r.pc > 4 <==> r.copy.Some?)
    && (r.pc > 9 ==> r.leader != "")
    && (r.pc > 13 ==> AllInstancesJoined(shape, w.remote.joined))
    && (r.pc > 17 ==> r.copy.value.status.bootstrapped)
    && (r.loops.Some? ==> r.pc == 13 && LoopsOk(w, shape, r.leader, r.loops.value))
  }

  ghost predicate RecOk(c: Setup, w: World, r: Rec) {
    && (r.copy.Some? ==> CopyOk(c, w, r))
    && LeaderOk(c, w, r)
    && match r.kind
       case ClusterKind => ClusterRecOk(c, w, r)
       case RoleKind(_) => RoleRecOk(c, w, r)
       case ConfigKind => r.loops.None? && (r.pc > 4 <==> r.copy.Some?)
  }

  ghost predicate Inv(c: Setup, w: World) {
    && WellFormed(c)
    && GlobalOk(c, w)
    && forall id | id in w.recs :: RecOk(c, w, w.recs[id])
  }

  // ---------------------------------------------------------------- what only grows

  ghost predicate Grows(w: World, w': World) {
    && w.versions <= w'.versions
    && w.remote.joined <= w'.remote.joined && w.remote.booted <= w'.remote.booted
    && (w.remote.vshard ==> w'.remote.vshard)
    && w.joins <= w'.joins && w.bootstraps <= w'.bootstraps
    && w.unfit <= w'.unfit
    && (w.founder == "" || w'.founder == w.founder)
  }

  lemma MayReplaceStays(c: Setup, w: World, w': World, i: nat, leader: string)
    requires w.versions <= w'.versions && w.unfit <= w'.unfit
    requires i < |w.versions| && MayReplace(c, w, i, leader)
    ensures MayReplace(c, w', i, leader)
  {
    if leader != w.versions[i].leader && w.versions[i].leader != "" {
      var o :| o in w.unfit && o.version == i && o.pod == EffectiveLeader(c.foreign, w.versions[i])
               && CanBeLeader(o.view, true) == Ok(false);
      assert o in w'.unfit;
    }
  }

  /** What a reconcile knows stays true while others move. */
  lemma RecStays(c: Setup, w: World, w': World, r: Rec)
    requires RecOk(c, w, r) && Grows(w, w')
    ensures RecOk(c, w', r)
  {
    if r.copy.Some? {
      MayReplaceStays(c, w, w', r.copy.value.base, r.copy.value.status.leader);
      assert CopyOk(c, w', r);
    }
    assert LeaderOk(c, w', r);
    if r.kind.RoleKind? {
      assert r.pc > 13 ==> AllInstancesJoined(c.roles[r.kind.role], w'.remote.joined);
      assert r.loops.Some? ==> LoopsOk(w', c.roles[r.kind.role], r.leader, r.loops.value);
    }
  }

  // ---------------------------------------------------------------- writing a cluster status

  /** A status that a copy of version i may carry to the store. */
  ghost predicate Writable(c: Setup, w: World, i: nat, s: Status) {
    && i < |w.versions|
    && (w.versions[i].bootstrapped ==> s.bootstrapped)
    && (s.bootstrapped ==> w.remote.vshard && |w.bootstraps| > 0 && EffectiveLeader(c.foreign, s) != "")
    && (PastBootstrap(s.phase) ==> s.bootstrapped)
    && MayReplace(c, w, i, s.leader)
  }

  ghost function WithVersions(w: World, h: History): World {
    w.(versions := h, founder := Founded(w.founder, h))
  }

  lemma FounderAfterAppend(c: Setup, w: World, s: Status)
    requires VersionsOk(c, w) && Writable(c, w, |w.versions| - 1, s)
    ensures var w' := WithVersions(w, w.versions + [s]);
      && (w.founder == "" || w'.founder == w.founder)
      && (c.foreign != "" ==> w'.founder == c.foreign)
      && (c.foreign == "" ==> (w'.founder == "" <==> s.leader == ""))
  {}

  lemma AppendKeepsVersions(c: Setup, w: World, s: Status)
    requires VersionsOk(c, w) && Writable(c, w, |w.versions| - 1, s)
    ensures VersionsOk(c, WithVersions(w, w.versions + [s]))
  {
    var w' := WithVersions(w, w.versions + [s]);
    var n := |w.versions|;
    FounderAfterAppend(c, w, s);
    assert VersionOk(c, w, n - 1);
    forall i: nat | i < |w'.versions|
      ensures VersionOk(c, w', i)
    {
      if i < n { assert VersionOk(c, w, i); }
    }
    forall i: nat | i + 1 < |w'.versions|
      ensures SuccessionOk(c, w', i)
    {
      if i + 1 < n {
        assert SuccessionOk(c, w, i);
        MayReplaceStays(c, w, w', i, w.versions[i + 1].leader);
      } else {
        MayReplaceStays(c, w, w', i, s.leader);
      }
    }
  }

  lemma WriteKeeps(c: Setup, w: World, copy: Copy, fault: Fault)
    requires GlobalOk(c, w) && Writable(c, w, copy.base, copy.status)
    ensures var w' := WithVersions(w, Write(w.versions, copy, fault).0);
      GlobalOk(c, w') && Grows(w, w')
  {
    var h := Write(w.versions, copy, fault).0;
    var w' := WithVersions(w, h);
    if h == w.versions {
      assert w' == w;
    } else {
      assert h == w.versions + [copy.status];
      AppendKeepsVersions(c, w, copy.status);
      FounderAfterAppend(c, w, copy.status);
      assert RolesOk(c, w') by {
        forall role, p | role in w.roles && p in w.roles[role]
          ensures RolePhaseOk(c, w', role, p)
        {
          assert RolePhaseOk(c, w, role, p);
        }
      }
    }
  }

  // ---------------------------------------------------------------- one transition of a reconcile

  /** What has to be shown of a transition that leads from w to w' and turns a reconcile into r'. */
  ghost predicate Sound(c: Setup, w: World, w': World, r': Rec) {
    && GlobalOk(c, w') && Grows(w, w') && RecOk(c, w', r')
    && w'.recs == w.recs
  }

  /** A reconcile about to take a step. */
  ghost predicate Here(c: Setup, w: World, r: Rec) {
    GlobalOk(c, w) && RecOk(c, w, r) && !r.done
  }

  /** The positions with a condition of their own in the invariant. */
  predicate Special(k: Kind, pc: nat) {
    match k
    case ClusterKind => pc in {1, 2, 8, 11, 12}
    case RoleKind(_) => pc in {1, 2, 4, 9, 13, 17}
    case ConfigKind => pc in {4, 7}
  }

  /** A reconcile that gives up keeps what it knows. */
  lemma OverSound(c: Setup, w: World, r: Rec)
    requires RecOk(c, w, r) && r.pc != 2
    ensures RecOk(c, w, Over(r))
  {
    if r.copy.Some? { assert CopyOk(c, w, Over(r)); }
  }

  /** So does one that passes an ordinary step. */
  lemma AdvanceSound(c: Setup, w: World, r: Rec)
    requires RecOk(c, w, r) && !Special(r.kind, r.pc) && r.loops.None?
    ensures RecOk(c, w, Advance(r))
  {
    if r.copy.Some? { assert CopyOk(c, w, Advance(r)); }
  }

  /** A phase may be set where the invariant lets the phase be. */
  lemma SetPhaseSound(c: Setup, w: World, r: Rec, p: Phase)
    requires Here(c, w, r) && r.loops.None? && (r.pc == 2 || !Special(r.kind, r.pc)) && r.pc > 1
    requires r.kind.ClusterKind? && PastBootstrap(p) ==> r.pc >= 13
    requires r.kind.RoleKind? && PastJoin(p) ==> r.pc >= 16
    requires r.kind.RoleKind? && PastWait(p) ==> r.pc >= 18
    ensures RecOk(c, w, Advance(WithPhase(r, p)))
  {
    if r.copy.Some? { assert CopyOk(c, w, Advance(WithPhase(r, p))); }
  }

  // ---------------------------------------------------------------- reading

  /** A copy as it was read. */
  lemma ReadCopyOk(c: Setup, w: World, r: Rec)
    requires VersionsOk(c, w) && r.copy.Some? && r.copy.value.base < |w.versions|
    requires r.copy.value.status == w.versions[r.copy.value.base]
    ensures CopyOk(c, w, r)
  {
    assert VersionOk(c, w, r.copy.value.base);
  }

  lemma FetchSound(c: Setup, w: World, r: Rec, input: Input)
    requires Here(c, w, r) && r.pc == 1
    ensures var (w', r') := FetchGate(w, r, input); w' == w && RecOk(c, w, r')
  {
    var r' := FetchGate(w, r, input).1;
    if r'.copy.Some? && r'.copy != r.copy { ReadCopyOk(c, w, r'); }
    else if r'.done { OverSound(c, w, r); }
  }

  /** The step that reads the cluster an object belongs to. */
  lemma GetClusterSound(c: Setup, w: World, r: Rec, version: nat)
    requires Here(c, w, r) && r.pc == 4 && !r.kind.ClusterKind? && version < |w.versions|
    ensures RecOk(c, w, Advance(r.(copy := Some(Copy(version, w.versions[version])))))
  {
    ReadCopyOk(c, w, Advance(r.(copy := Some(Copy(version, w.versions[version])))));
  }

  // ---------------------------------------------------------------- waiting

  lemma WaitSound(c: Setup, w: World, r: Rec)
    requires Here(c, w, r) && r.loops.None? && r.copy.Some? && !r.kind.ClusterKind?
    requires r.pc == (if r.kind.RoleKind? then 17 else 5)
    requires Continues(WaitForBootstrapped(r.copy))
    ensures RecOk(c, w, Advance(r))
  {
    assert CopyOk(c, w, Advance(r));
  }

  lemma {:induction false} OpeningItemsExact(expected: seq<Phase>, views: seq<RolesView>)
    requires Continues(WaitForRoles(expected, views))
    ensures Roles(OpeningItems(expected, views)) in views
    ensures exists e :: e in expected && AllAtPhase(OpeningItems(expected, views), e)
  {
    if AllAtPhase(views[0].items, expected[0]) {
    } else {
      OpeningItemsExact(expected[1..], views[1..]);
      var e :| e in expected[1..] && AllAtPhase(OpeningItems(expected[1..], views[1..]), e);
      assert e in expected;
    }
  }

  /** The listing that opens the gate shows only roles whose instances have all joined. */
  lemma OpenedMeansJoined(c: Setup, w: World, views: seq<RolesView>)
    requires GlobalOk(c, w) && HonestViews(views, w.roles)
    requires Continues(WaitForRoles([WaitingForBootstrap, Ready], views))
    ensures ListedOk(c, OpeningItems([WaitingForBootstrap, Ready], views), w.remote.joined)
  {
    var items := OpeningItems([WaitingForBootstrap, Ready], views);
    OpeningItemsExact([WaitingForBootstrap, Ready], views);
    forall item | item in items
      ensures item.name in c.roles && AllInstancesJoined(c.roles[item.name], w.remote.joined)
    {
      assert RolePhaseOk(c, w, item.name, item.phase);
    }
  }

  lemma RolesGateSound(c: Setup, w: World, r: Rec, items: seq<RoleItem>)
    requires Here(c, w, r) && r.kind.ClusterKind? && r.pc == 8 && ListedOk(c, items, w.remote.joined)
    ensures RecOk(c, w, Advance(r.(listed := items)))
  {
    assert CopyOk(c, w, Advance(r.(listed := items)));
  }

  // ---------------------------------------------------------------- the bootstrap gate

  lemma GlobalStays(c: Setup, w: World, w': World)
    requires GlobalOk(c, w) && Grows(w, w')
    requires w'.versions == w.versions && w'.roles == w.roles && w'.founder == w.founder
    ensures VersionsOk(c, w') && RolesOk(c, w')
  {
    forall i: nat | i < |w.versions|
      ensures VersionOk(c, w', i)
    {
      assert VersionOk(c, w, i);
    }
    forall i: nat | i + 1 < |w.versions|
      ensures SuccessionOk(c, w', i)
    {
      assert SuccessionOk(c, w, i);
      MayReplaceStays(c, w, w', i, w.versions[i + 1].leader);
    }
    forall role, p | role in w.roles && p in w.roles[role]
      ensures RolePhaseOk(c, w', role, p)
    {
      assert RolePhaseOk(c, w, role, p);
    }
  }

  lemma BootstrapSound(c: Setup, w: World, r: Rec, fate: BootstrapFate)
    requires Here(c, w, r) && r.kind.ClusterKind? && r.pc == 12
    ensures var (w', r') := BootstrapGate(w, r, fate); Sound(c, w, w', r')
  {
    var s := r.copy.value.status;
    FlagFollowsRemote(s, w.remote.vshard, fate);
    var (w', r') := BootstrapGate(w, r, fate);
    GlobalStays(c, w, w');
    MayReplaceStays(c, w, w', r.copy.value.base, s.leader);
    assert CopyOk(c, w', r');
  }

  // ---------------------------------------------------------------- the leader gate

  lemma SearchFindsFit(roles: Option<seq<RoleShape>>, q: Query)
    requires FindNewLeader(roles, q).Ok?
    ensures var name := FindNewLeader(roles, q).value;
      name != "" && Look(q.pods, name).Found? && CanBeLeader(q.pods[name].view, q.bootstrapped) == Ok(true)
  {
    SearchStopsAtFirst(roles.value, q);
    var t :| StopsAt(roles.value, t, q);
    assert Judge(NameOf(roles.value, t), q) == Some(FindNewLeader(roles, q));
  }

  /** A reconcile at its leader gate. */
  ghost predicate AtLeaderGate(c: Setup, w: World, r: Rec) {
    && Here(c, w, r) && r.copy.Some? && r.loops.None?
    && r.pc == match r.kind { case ClusterKind => 11 case RoleKind(_) => 9 case ConfigKind => 7 }
  }

  lemma ObservedOk(c: Setup, w: World, copy: Copy, pods: Pods)
    requires GlobalOk(c, w)
    ensures GlobalOk(c, Observed(c, w, copy, pods)) && Grows(w, Observed(c, w, copy, pods))
  {
    GlobalStays(c, w, Observed(c, w, copy, pods));
  }

  /** The effective leader of a version is the founder before bootstrap, and there is a founder. */
  lemma LeaderHasFounder(c: Setup, w: World, i: nat)
    requires VersionsOk(c, w) && i < |w.versions| && EffectiveLeader(c.foreign, w.versions[i]) != ""
    ensures w.founder != "" && (!w.versions[i].bootstrapped ==> EffectiveLeader(c.foreign, w.versions[i]) == w.founder)
  {
    assert VersionOk(c, w, i);
  }

  /** The present leader is used. */
  lemma LoadSound(c: Setup, w: World, r: Rec, pods: Pods)
    requires AtLeaderGate(c, w, r) && HonestPods(pods, w.remote.booted)
    requires Load(c.foreign, r.copy.value.status, pods).Ok?
    ensures RecOk(c, w, Advance(r.(leader := Load(c.foreign, r.copy.value.status, pods).value)))
  {
    var r' := Advance(r.(leader := Load(c.foreign, r.copy.value.status, pods).value));
    LeaderHasFounder(c, w, r.copy.value.base);
    assert CopyOk(c, w, r');
    assert LeaderOk(c, w, r');
  }

  /** The new leader may be written over the copy's version. */
  lemma ElectedWritable(c: Setup, w: World, r: Rec, roles: Option<seq<RoleShape>>, pods: Pods)
    requires AtLeaderGate(c, w, r) && MustElect(c.foreign, r.copy.value.status, pods)
    requires FindNewLeader(roles, QueryOf(c.foreign, r.copy.value.status, pods)).Ok?
    ensures var copy := r.copy.value;
      var name := FindNewLeader(roles, QueryOf(c.foreign, copy.status, pods)).value;
      Writable(c, Observed(c, w, copy, pods), copy.base, copy.status.(leader := name))
  {
    var copy := r.copy.value;
    var q := QueryOf(c.foreign, copy.status, pods);
    var w1 := Observed(c, w, copy, pods);
    SearchFindsFit(roles, q);
    assert VersionOk(c, w, copy.base);
    if Load(c.foreign, copy.status, pods) == Err(LeaderNotReady) {
      assert Observation(copy.base, q.former, pods[q.former].view) in w1.unfit;
      assert SeenUnfit(w1, copy.base, q.former);
    }
  }

  /** Without an election nothing is written. */
  lemma LoadedCase(c: Setup, w: World, r: Rec, loaded: Result<string, ElectionError>)
    requires VersionsOk(c, w) && r.copy.Some?
    ensures AfterElection(w, r, Elected(w.versions, r.copy.value, loaded)) ==
            (w, if loaded.Ok? then Advance(r.(leader := loaded.value)) else Over(r))
  {
    assert Founded(w.founder, w.versions) == w.founder;
    assert r.(copy := Some(r.copy.value)) == r;
  }

  lemma ElectSound(c: Setup, w: World, r: Rec, roles: Option<seq<RoleShape>>, pods: Pods, fault: Fault)
    requires AtLeaderGate(c, w, r) && HonestPods(pods, w.remote.booted)
    requires MustElect(c.foreign, r.copy.value.status, pods)
    requires FindNewLeader(roles, QueryOf(c.foreign, r.copy.value.status, pods)).Ok?
    ensures var elected := Elect(c.foreign, roles, pods, w.versions, r.copy.value, fault);
      var (w', r') := AfterElection(Observed(c, w, r.copy.value, pods), r, elected);
      Sound(c, w, w', r')
  {
    var copy := r.copy.value;
    var q := QueryOf(c.foreign, copy.status, pods);
    var w1 := Observed(c, w, copy, pods);
    ObservedOk(c, w, copy, pods);
    RecStays(c, w, w1, r);
    var s := copy.status.(leader := FindNewLeader(roles, q).value);
    SearchFindsFit(roles, q);
    ElectedWritable(c, w, r, roles, pods);
    WriteKeeps(c, w1, Copy(copy.base, s), fault);
    var (w', r') := AfterElection(w1, r, Elect(c.foreign, roles, pods, w.versions, copy, fault));
    ElectedRecSound(c, w1, r, s, fault, w', r');
  }

  /** The reconcile after an election: it goes on with the leader it wrote, or it is over. */
  lemma ElectedRecSound(c: Setup, w1: World, r: Rec, s: Status, fault: Fault, w': World, r': Rec)
    requires AtLeaderGate(c, w1, r) && Grows(w1, w') && GlobalOk(c, w')
    requires s == r.copy.value.status.(leader := s.leader) && s.leader != ""
    requires Writable(c, w1, r.copy.value.base, s)
    requires EffectiveLeader(c.foreign, r.copy.value.status) == "" || s.bootstrapped
    requires s.bootstrapped ==> s.leader in w'.remote.booted
    requires var (h, copy, result) := Write(w1.versions, Copy(r.copy.value.base, s), fault);
      && w'.versions == h
      && r' == if result.Written? then Advance(r.(copy := Some(copy), leader := s.leader))
          else Over(r.(copy := Some(copy)))
    ensures RecOk(c, w', r')
  {
    var base := r'.copy.value.base;
    var result := Write(w1.versions, Copy(r.copy.value.base, s), fault).2;
    if result.Written? {
      assert w'.versions[base] == s;
      LeaderHasFounder(c, w', base);
    } else {
      MayReplaceStays(c, w1, w', base, s.leader);
    }
    assert CopyOk(c, w', r');
    assert LeaderOk(c, w', r');
  }

  /** A gate that wrote nothing: it used the present leader or gave up. */
  lemma NothingWrittenSound(c: Setup, w: World, r: Rec, pods: Pods, loaded: Result<string, ElectionError>)
    requires AtLeaderGate(c, w, r) && HonestPods(pods, w.remote.booted)
    requires loaded.Ok? ==> loaded == Load(c.foreign, r.copy.value.status, pods)
    ensures var elected := Elected(w.versions, r.copy.value, loaded);
      var (w', r') := AfterElection(Observed(c, w, r.copy.value, pods), r, elected);
      Sound(c, w, w', r')
  {
    var w1 := Observed(c, w, r.copy.value, pods);
    ObservedOk(c, w, r.copy.value, pods);
    LoadedCase(c, w1, r, loaded);
    RecStays(c, w, w1, r);
    OverSound(c, w1, r);
    if loaded.Ok? { LoadSound(c, w, r, pods); }
  }

  lemma LeaderGateSound(c: Setup, w: World, r: Rec, roles: Option<seq<RoleShape>>, pods: Pods, fault: Fault)
    requires AtLeaderGate(c, w, r) && HonestPods(pods, w.remote.booted)
    ensures var (w', r') := LeaderGate(c, w, r, roles, pods, fault); Sound(c, w, w', r')
  {
    var s := r.copy.value.status;
    var found := FindNewLeader(roles, QueryOf(c.foreign, s, pods));
    if !MustElect(c.foreign, s, pods) {
      NothingWrittenSound(c, w, r, pods, Load(c.foreign, s, pods));
    } else if found.Err? {
      NothingWrittenSound(c, w, r, pods, found);
    } else {
      ElectSound(c, w, r, roles, pods, fault);
    }
  }

  // ---------------------------------------------------------------- the join gate

  /** A walk without a failed list visits every instance the role asks for. */
  lemma WalkCovers(shape: RoleShape, lists: seq<Joining.Listing>, o: nat, p: nat)
    requires ReflectsCreates(shape, lists) && Joining.NoList !in Joining.Walk(shape, lists)
    requires o < shape.replicasets && p < shape.replicas
    ensures Joining.PodVisit(o, Names.PodName(shape.name, o, p)) in Joining.Walk(shape, lists)
  {
    Joining.WalkNeedsLists(shape, lists, 0, 0, 0, o);
    var i :| 0 <= i < |lists[o].items| && lists[o].items[i] == Joining.Item(Names.ReplicasetName(shape.name, o), false);
    Joining.WalkReaches(shape, lists, o, i, p);
  }

  lemma WalkStarts(c: Setup, w: World, r: Rec, shape: RoleShape, lists: seq<Joining.Listing>)
    requires ReflectsCreates(shape, lists)
    ensures LoopsOk(w, shape, r.leader, Loops(Joining.Walk(shape, lists), 0, true, false))
  {
    forall o: nat, p: nat | Joining.NoList !in Joining.Walk(shape, lists) && o < shape.replicasets && p < shape.replicas
      ensures Joining.PodVisit(o, Names.PodName(shape.name, o, p)) in Joining.Walk(shape, lists)
    {
      WalkCovers(shape, lists, o, p);
    }
  }

  /** Loops that end with every pod joined have joined every instance of the role. */
  lemma WalkEnds(w: World, shape: RoleShape, leader: string, l: Loops)
    requires LoopsOk(w, shape, leader, l) && l.cursor >= |l.walk| && l.allJoined
    ensures AllInstancesJoined(shape, w.remote.joined)
  {
    assert Joining.NoList !in l.walk;
    forall o: nat, p: nat | o < shape.replicasets && p < shape.replicas
      ensures Names.PodName(shape.name, o, p) in w.remote.joined
    {
      var k :| 0 <= k < |l.walk| && l.walk[k] == Joining.PodVisit(o, Names.PodName(shape.name, o, p));
    }
  }

  /** A reconcile in its join loops. */
  ghost predicate AtJoinGate(c: Setup, w: World, r: Rec) {
    Here(c, w, r) && r.kind.RoleKind? && r.pc == 13
  }

  lemma LoopsSound(c: Setup, w: World, r: Rec, l: Loops)
    requires AtJoinGate(c, w, r) && LoopsOk(w, c.roles[r.kind.role], r.leader, l)
    ensures RecOk(c, w, r.(loops := Some(l)))
  {
    assert CopyOk(c, w, r.(loops := Some(l)));
  }

  lemma LeaveLoopsSound(c: Setup, w: World, r: Rec)
    requires AtJoinGate(c, w, r)
    ensures RecOk(c, w, Over(r.(loops := None)))
    ensures RecOk(c, w, Over(r.(loops := None, phase := ConfigError)))
    ensures AllInstancesJoined(c.roles[r.kind.role], w.remote.joined) ==> RecOk(c, w, Advance(r.(loops := None)))
  {
    assert CopyOk(c, w, Over(r.(loops := None)));
    assert CopyOk(c, w, Over(r.(loops := None, phase := ConfigError)));
    assert CopyOk(c, w, Advance(r.(loops := None)));
  }

  lemma LookSound(c: Setup, w: World, r: Rec, answers: Joining.Answers)
    requires AtJoinGate(c, w, r) && r.loops.Some? && r.loops.value.cursor < |r.loops.value.walk|
             && !r.loops.value.calling
    ensures RecOk(c, w, JoinGate(c, w, r, c.roles[r.kind.role], ConfigError, Looked(answers)).1)
  {
    var l := r.loops.value;
    match Joining.Inspect(l.walk[l.cursor], r.leader, w.remote.booted, answers)
    case Wait => LoopsSound(c, w, r, l.(cursor := l.cursor + 1, allJoined := false));
    case Skip => LoopsSound(c, w, r, l.(cursor := l.cursor + 1));
    case Fail(_) => LeaveLoopsSound(c, w, r);
    case CallJoin => LoopsSound(c, w, r, l.(calling := true));
  }

  /** A join call is made as the invariant demands, and leaves the remote side as it demands. */
  lemma CallSound(c: Setup, w: World, r: Rec, answer: JoinAnswer)
    requires AtJoinGate(c, w, r) && r.loops.Some? && r.loops.value.calling
    ensures var (w', _) := JoinGate(c, w, r, c.roles[r.kind.role], ConfigError, Replied(answer));
      GlobalOk(c, w') && Grows(w, w') && w'.recs == w.recs
  {
    var (w', _) := JoinGate(c, w, r, c.roles[r.kind.role], ConfigError, Replied(answer));
    GlobalStays(c, w, w');
    assert RemoteOk(w');
    assert JoinOk(w.founder, w'.joins[|w.joins|]);
  }

  /** A successful call lets the loops go on to the next pod. */
  lemma JoinedLoopsOk(w: World, w': World, shape: RoleShape, leader: string, l: Loops)
    requires LoopsOk(w, shape, leader, l) && l.calling
    requires w.remote.joined <= w'.remote.joined && l.walk[l.cursor].pod in w'.remote.joined
    ensures LoopsOk(w', shape, leader, l.(cursor := l.cursor + 1, calling := false))
  {}

  lemma ReplySound(c: Setup, w: World, r: Rec, answer: JoinAnswer)
    requires AtJoinGate(c, w, r) && r.loops.Some? && r.loops.value.calling
    ensures var (w', r') := JoinGate(c, w, r, c.roles[r.kind.role], ConfigError, Replied(answer)); Sound(c, w, w', r')
  {
    var l := r.loops.value;
    var w' := JoinGate(c, w, r, c.roles[r.kind.role], ConfigError, Replied(answer)).0;
    CallSound(c, w, r, answer);
    RecStays(c, w, w', r);
    if JoinError(answer.reply).None? {
      JoinedLoopsOk(w, w', c.roles[r.kind.role], r.leader, l);
      LoopsSound(c, w', r, l.(cursor := l.cursor + 1, calling := false));
    } else {
      LeaveLoopsSound(c, w', r);
    }
  }

  lemma JoinGateSound(c: Setup, w: World, r: Rec, input: Input)
    requires AtJoinGate(c, w, r)
    ensures var (w', r') := JoinGate(c, w, r, c.roles[r.kind.role], ConfigError, input); Sound(c, w, w', r')
  {
    var shape := c.roles[r.kind.role];
    if r.loops.None? {
      if input.Lists? && ReflectsCreates(shape, input.lists) {
        WalkStarts(c, w, r, shape, input.lists);
        LoopsSound(c, w, r, Loops(Joining.Walk(shape, input.lists), 0, true, false));
      }
    } else {
      var l := r.loops.value;
      if l.cursor >= |l.walk| {
        LeaveLoopsSound(c, w, r);
        if l.allJoined { WalkEnds(w, shape, r.leader, l); }
      } else if !l.calling {
        if input.Looked? { LookSound(c, w, r, input.answers); }
      } else if input.Replied? {
        ReplySound(c, w, r, input.join);
      }
    }
  }

  // ---------------------------------------------------------------- every step

  predicate PlainGate(g: S.Gate) {
    !g.Fetch? && !g.GetCluster? && !g.WaitForRoles? && !g.GetLeader? && !g.Bootstrap? && !g.WaitForBootstrapped?
        && !g.JoinInstances?
  }

  /** A step the invariant has no condition of its own for. */
  ghost predicate Ordinary(k: Kind, pc: nat, step: S.Step) {
    && !Special(k, pc) && !(k.RoleKind? && pc == 13) && !(k.ConfigKind? && (pc == 1 || pc == 5))
    && (step.Check? ==> PlainGate(step.gate) && pc != 2)
    && (pc <= 1 ==> step.Info?)
    && (step.SetPhase? && k.ClusterKind? && PastBootstrap(step.phase) ==> pc >= 13)
    && (step.SetPhase? && k.RoleKind? && PastJoin(step.phase) ==> pc >= 16)
    && (step.SetPhase? && k.RoleKind? && PastWait(step.phase) ==> pc >= 18)
  }

  /** What the proof uses of the lists: which step stands at which position. */
  ghost predicate StandsAt(k: Kind, pc: nat, step: S.Step) {
    match k
    case ClusterKind =>
      && (pc == 1 ==> step == S.Check(S.Fetch))
      && (pc == 2 ==> step == S.SetPhase(Pending))
      && (pc == 8 ==> step == S.Check(S.WaitForRoles([WaitingForBootstrap, Ready])))
      && (pc == 11 ==> step == S.Check(S.GetLeader))
      && (pc == 12 ==> step == S.Check(S.Bootstrap(UnableToBootstrap)))
      && (!Special(k, pc) ==> Ordinary(k, pc, step))
    case RoleKind(_) =>
      && (pc == 1 ==> step == S.Check(S.Fetch))
      && (pc == 2 ==> step == S.ResetStatus)
      && (pc == 4 ==> step == S.Check(S.GetCluster))
      && (pc == 9 ==> step == S.Check(S.GetLeader))
      && (pc == 13 ==> step == S.Check(S.JoinInstances(ConfigError)))
      && (pc == 17 ==> step == S.Check(S.WaitForBootstrapped))
      && (!Special(k, pc) && pc != 13 ==> Ordinary(k, pc, step))
    case ConfigKind =>
      && (pc == 1 ==> step == S.Check(S.Fetch))
      && (pc == 4 ==> step == S.Check(S.GetCluster))
      && (pc == 5 ==> step == S.Check(S.WaitForBootstrapped))
      && (pc == 7 ==> step == S.Check(S.GetLeader))
      && (!Special(k, pc) && pc != 1 && pc != 5 ==> Ordinary(k, pc, step))
  }

  lemma StepsStand(k: Kind, pc: nat)
    requires pc < |StepsOf(k)|
    ensures StandsAt(k, pc, StepsOf(k)[pc])
  {}

  lemma LocalStepSound(c: Setup, w: World, r: Rec, step: S.Step)
    requires Here(c, w, r) && r.loops.None? && !step.Check?
    requires Ordinary(r.kind, r.pc, step) || (r.pc == 2 && (step == S.ResetStatus || step == S.SetPhase(Pending)))
    ensures RecOk(c, w, LocalStep(r, step))
  {
    if step.Info? {
      assert LocalStep(r, step) == Advance(r);
      AdvanceSound(c, w, r);
    } else {
      SetPhaseSound(c, w, r, if step.SetPhase? then step.phase else Unset);
    }
  }

  /** The step taken from here leads to a sound state. */
  ghost predicate StepSound(c: Setup, w: World, r: Rec, step: S.Step, input: Input) {
    var (w', r') := TakeStep(c, w, r, step, input);
    Sound(c, w, w', r')
  }

  /** A transition that changes nothing outside the reconcile. */
  lemma StaySound(c: Setup, w: World, r': Rec)
    requires GlobalOk(c, w) && RecOk(c, w, r')
    ensures Sound(c, w, w, r')
  {}

  lemma PlainSound(c: Setup, w: World, r: Rec, g: S.Gate)
    requires Here(c, w, r) && r.loops.None? && Ordinary(r.kind, r.pc, S.Check(g))
    ensures Sound(c, w, w, Advance(r)) && Sound(c, w, w, Over(r))
  {
    AdvanceSound(c, w, r);
    OverSound(c, w, r);
    StaySound(c, w, Advance(r));
    StaySound(c, w, Over(r));
  }

  lemma PlainGateIs(c: Setup, w: World, r: Rec, g: S.Gate, input: Input)
    requires PlainGate(g)
    ensures TakeStep(c, w, r, S.Check(g), input) == (w, if input.Pass? then Advance(r) else Over(r))
  {}

  lemma PlainStep(c: Setup, w: World, r: Rec, g: S.Gate, input: Input)
    requires Here(c, w, r) && r.loops.None? && Ordinary(r.kind, r.pc, S.Check(g))
    ensures StepSound(c, w, r, S.Check(g), input)
  {
    PlainGateIs(c, w, r, g, input);
    PlainSound(c, w, r, g);
  }

  lemma PhaseStepIs(c: Setup, w: World, r: Rec, step: S.Step, input: Input)
    requires !step.Check?
    ensures TakeStep(c, w, r, step, input) == (w, LocalStep(r, step))
  {}

  lemma PhaseStep(c: Setup, w: World, r: Rec, step: S.Step, input: Input)
    requires Here(c, w, r) && r.loops.None? && Ordinary(r.kind, r.pc, step) && !step.Check?
    ensures StepSound(c, w, r, step, input)
  {
    PhaseStepIs(c, w, r, step, input);
    LocalStepSound(c, w, r, step);
    StaySound(c, w, LocalStep(r, step));
  }

  lemma OrdinarySound(c: Setup, w: World, r: Rec, step: S.Step, input: Input)
    requires Here(c, w, r) && r.loops.None? && Ordinary(r.kind, r.pc, step)
    ensures StepSound(c, w, r, step, input)
  {
    if step.Check? { PlainStep(c, w, r, step.gate, input); } else { PhaseStep(c, w, r, step, input); }
  }

  lemma FetchStep(c: Setup, w: World, r: Rec, input: Input)
    requires Here(c, w, r) && r.pc == 1
    ensures StepSound(c, w, r, S.Check(S.Fetch), input)
  {
    FetchSound(c, w, r, input);
  }

  lemma ResetStep(c: Setup, w: World, r: Rec, step: S.Step, input: Input)
    requires Here(c, w, r) && r.pc == 2 && r.loops.None? && (step == S.ResetStatus || step == S.SetPhase(Pending))
    ensures StepSound(c, w, r, step, input)
  {
    LocalStepSound(c, w, r, step);
  }

  lemma GetClusterIs(c: Setup, w: World, r: Rec, input: Input)
    ensures TakeStep(c, w, r, S.Check(S.GetCluster), input) ==
            (w, if input.Read? && input.version < |w.versions|
                then Advance(r.(copy := Some(Copy(input.version, w.versions[input.version])))) else Over(r))
  {}

  lemma GetClusterStep(c: Setup, w: World, r: Rec, input: Input)
    requires Here(c, w, r) && r.pc == 4 && !r.kind.ClusterKind?
    ensures StepSound(c, w, r, S.Check(S.GetCluster), input)
  {
    GetClusterIs(c, w, r, input);
    OverSound(c, w, r);
    StaySound(c, w, Over(r));
    if input.Read? && input.version < |w.versions| {
      GetClusterSound(c, w, r, input.version);
      StaySound(c, w, Advance(r.(copy := Some(Copy(input.version, w.versions[input.version])))));
    }
  }

  lemma WaitGateIs(c: Setup, w: World, r: Rec, input: Input)
    ensures TakeStep(c, w, r, S.Check(S.WaitForBootstrapped), input) ==
            (w, if Continues(WaitForBootstrapped(r.copy)) then Advance(r) else Over(r))
  {}

  lemma WaitStep(c: Setup, w: World, r: Rec, input: Input)
    requires Here(c, w, r) && !r.kind.ClusterKind? && r.loops.None? && r.copy.Some?
    requires r.pc == (if r.kind.RoleKind? then 17 else 5)
    ensures StepSound(c, w, r, S.Check(S.WaitForBootstrapped), input)
  {
    WaitGateIs(c, w, r, input);
    OverSound(c, w, r);
    StaySound(c, w, Over(r));
    if Continues(WaitForBootstrapped(r.copy)) {
      WaitSound(c, w, r);
      StaySound(c, w, Advance(r));
    }
  }

  lemma RolesGateIs(c: Setup, w: World, r: Rec, expected: seq<Phase>, input: Input)
    ensures TakeStep(c, w, r, S.Check(S.WaitForRoles(expected)), input) ==
            (w, if !input.Views? || !HonestViews(input.views, w.roles) then r
                else if Continues(WaitForRoles(expected, input.views))
                    then Advance(r.(listed := OpeningItems(expected, input.views)))
                else Over(r))
  {}

  lemma RolesStep(c: Setup, w: World, r: Rec, input: Input)
    requires Here(c, w, r) && r.kind.ClusterKind? && r.pc == 8
    ensures StepSound(c, w, r, S.Check(S.WaitForRoles([WaitingForBootstrap, Ready])), input)
  {
    RolesGateIs(c, w, r, [WaitingForBootstrap, Ready], input);
    OverSound(c, w, r);
    StaySound(c, w, r);
    StaySound(c, w, Over(r));
    if !input.Views? || !HonestViews(input.views, w.roles) {
    } else if Continues(WaitForRoles([WaitingForBootstrap, Ready], input.views)) {
      var items := OpeningItems([WaitingForBootstrap, Ready], input.views);
      OpenedMeansJoined(c, w, input.views);
      RolesGateSound(c, w, r, items);
      StaySound(c, w, Advance(r.(listed := items)));
    }
  }

  lemma LeaderGateIs(c: Setup, w: World, r: Rec, input: Input)
    requires r.copy.Some?
    ensures TakeStep(c, w, r, S.Check(S.GetLeader), input) ==
            if input.Answer? && HonestPods(input.pods, w.remote.booted)
            then LeaderGate(c, w, r, input.roles, input.pods, input.fault) else (w, r)
  {}

  lemma LeaderStep(c: Setup, w: World, r: Rec, input: Input)
    requires AtLeaderGate(c, w, r)
    ensures StepSound(c, w, r, S.Check(S.GetLeader), input)
  {
    LeaderGateIs(c, w, r, input);
    StaySound(c, w, r);
    if input.Answer? && HonestPods(input.pods, w.remote.booted) {
      LeaderGateSound(c, w, r, input.roles, input.pods, input.fault);
    }
  }

  lemma BootstrapStep(c: Setup, w: World, r: Rec, input: Input)
    requires Here(c, w, r) && r.kind.ClusterKind? && r.pc == 12
    ensures StepSound(c, w, r, S.Check(S.Bootstrap(UnableToBootstrap)), input)
  {
    if input.Fate? { BootstrapSound(c, w, r, input.fate); }
  }

  lemma JoinGateIs(c: Setup, w: World, r: Rec, input: Input)
    requires r.kind.RoleKind? && r.kind.role in c.roles && r.copy.Some?
    ensures TakeStep(c, w, r, S.Check(S.JoinInstances(ConfigError)), input) ==
            JoinGate(c, w, r, c.roles[r.kind.role], ConfigError, input)
  {}

  lemma JoinStep(c: Setup, w: World, r: Rec, input: Input)
    requires AtJoinGate(c, w, r)
    ensures StepSound(c, w, r, S.Check(S.JoinInstances(ConfigError)), input)
  {
    JoinGateIs(c, w, r, input);
    JoinGateSound(c, w, r, input);
  }

  lemma ClusterStepSound(c: Setup, w: World, r: Rec, step: S.Step, input: Input)
    requires Here(c, w, r) && r.kind.ClusterKind? && StandsAt(r.kind, r.pc, step)
    ensures StepSound(c, w, r, step, input)
  {
    if r.pc == 1 { FetchStep(c, w, r, input); }
    else if r.pc == 2 { ResetStep(c, w, r, step, input); }
    else if r.pc == 8 { RolesStep(c, w, r, input); }
    else if r.pc == 11 { LeaderStep(c, w, r, input); }
    else if r.pc == 12 { BootstrapStep(c, w, r, input); }
    else { OrdinarySound(c, w, r, step, input); }
  }

  lemma RoleStepSound(c: Setup, w: World, r: Rec, step: S.Step, input: Input)
    requires Here(c, w, r) && r.kind.RoleKind? && StandsAt(r.kind, r.pc, step)
    ensures StepSound(c, w, r, step, input)
  {
    if r.pc == 1 { FetchStep(c, w, r, input); }
    else if r.pc == 2 { ResetStep(c, w, r, step, input); }
    else if r.pc == 4 { GetClusterStep(c, w, r, input); }
    else if r.pc == 9 { LeaderStep(c, w, r, input); }
    else if r.pc == 13 { JoinStep(c, w, r, input); }
    else if r.pc == 17 { WaitStep(c, w, r, input); }
    else { OrdinarySound(c, w, r, step, input); }
  }

  lemma ConfigStepSound(c: Setup, w: World, r: Rec, step: S.Step, input: Input)
    requires Here(c, w, r) && r.kind.ConfigKind? && StandsAt(r.kind, r.pc, step)
    ensures StepSound(c, w, r, step, input)
  {
    if r.pc == 1 { FetchStep(c, w, r, input); }
    else if r.pc == 4 { GetClusterStep(c, w, r, input); }
    else if r.pc == 5 { WaitStep(c, w, r, input); }
    else if r.pc == 7 { LeaderStep(c, w, r, input); }
    else { OrdinarySound(c, w, r, step, input); }
  }

  lemma RecStepSound(c: Setup, w: World, r: Rec, input: Input)
    requires Here(c, w, r)
    ensures var (w', r') := RecStep(c, w, r, input); Sound(c, w, w', r')
  {
    if r.pc < |StepsOf(r.kind)| {
      var step := StepsOf(r.kind)[r.pc];
      StepsStand(r.kind, r.pc);
      match r.kind
      case ClusterKind => ClusterStepSound(c, w, r, step, input);
      case RoleKind(_) => RoleStepSound(c, w, r, step, input);
      case ConfigKind => ConfigStepSound(c, w, r, step, input);
    } else {
      OverSound(c, w, r);
    }
  }

  // ---------------------------------------------------------------- the final status write

  lemma OnlyRolesChanged(c: Setup, w: World, w': World)
    requires GlobalOk(c, w) && RolesOk(c, w') && w' == w.(roles := w'.roles)
    ensures GlobalOk(c, w')
  {
    forall i: nat | i < |w.versions|
      ensures VersionOk(c, w', i)
    {
      assert VersionOk(c, w, i);
    }
    forall i: nat | i + 1 < |w.versions|
      ensures SuccessionOk(c, w', i)
    {
      assert SuccessionOk(c, w, i);
      MayReplaceStays(c, w, w', i, w.versions[i + 1].leader);
    }
  }

  /** The phase a role reconcile ends with may be persisted. */
  lemma OwnPhaseOk(c: Setup, w: World, r: Rec)
    requires GlobalOk(c, w) && RecOk(c, w, r) && r.done && r.kind.RoleKind? && r.fetched
    ensures RolePhaseOk(c, w, r.kind.role, r.phase)
  {
    if PastWait(r.phase) { assert VersionOk(c, w, r.copy.value.base); }
  }

  lemma RoleFinishSound(c: Setup, w: World, r: Rec, fault: Fault)
    requires GlobalOk(c, w) && r.kind.RoleKind? && r.fetched && RolePhaseOk(c, w, r.kind.role, r.phase)
    ensures GlobalOk(c, Finished(w, r, fault))
  {
    var w' := Finished(w, r, fault);
    forall name, p | name in w'.roles && p in w'.roles[name]
      ensures RolePhaseOk(c, w', name, p)
    {
      if p in w.roles[name] { assert RolePhaseOk(c, w, name, p); }
    }
    OnlyRolesChanged(c, w, w');
  }

  lemma FinishSound(c: Setup, w: World, r: Rec, fault: Fault)
    requires GlobalOk(c, w) && RecOk(c, w, r) && r.done
    ensures GlobalOk(c, Finished(w, r, fault)) && Grows(w, Finished(w, r, fault))
    ensures Finished(w, r, fault).recs == w.recs
  {
    match r.kind
    case ClusterKind =>
      if r.copy.Some? { WriteKeeps(c, w, r.copy.value, fault); }
    case RoleKind(role) =>
      if r.fetched {
        OwnPhaseOk(c, w, r);
        RoleFinishSound(c, w, r, fault);
      }
    case ConfigKind =>
  }

  // ---------------------------------------------------------------- every move, every run

  lemma TouchSound(c: Setup, w: World)
    requires GlobalOk(c, w)
    ensures var w' := w.(versions := w.versions + [Last(w.versions)]); GlobalOk(c, w') && Grows(w, w')
  {
    var w' := w.(versions := w.versions + [Last(w.versions)]);
    assert VersionOk(c, w, |w.versions| - 1);
    AppendKeepsVersions(c, w, Last(w.versions));
    assert Founded(w.founder, w.versions + [Last(w.versions)]) == w.founder;
    assert w' == WithVersions(w, w.versions + [Last(w.versions)]);
    forall role, p | role in w.roles && p in w.roles[role]
      ensures RolePhaseOk(c, w', role, p)
    {
      assert RolePhaseOk(c, w, role, p);
    }
  }

  lemma TouchRoleSound(c: Setup, w: World, role: string)
    requires GlobalOk(c, w) && role in w.roles
    ensures var h := w.roles[role]; |h| > 0 && GlobalOk(c, w.(roles := w.roles[role := h + [h[|h| - 1]]]))
  {
    var h := w.roles[role];
    var w' := w.(roles := w.roles[role := h + [h[|h| - 1]]]);
    forall name, p | name in w'.roles && p in w'.roles[name]
      ensures RolePhaseOk(c, w', name, p)
    {
      assert p in w.roles[name];
      assert RolePhaseOk(c, w, name, p);
    }
    OnlyRolesChanged(c, w, w');
  }

  lemma BootsSound(c: Setup, w: World, pod: string)
    requires GlobalOk(c, w) && pod in w.remote.joined
    ensures var w' := w.(remote := w.remote.(booted := w.remote.booted + {pod})); GlobalOk(c, w') && Grows(w, w')
  {
    GlobalStays(c, w, w.(remote := w.remote.(booted := w.remote.booted + {pod})));
  }

  /** The reconciles that do not move keep their part of the invariant. */
  lemma OthersStay(c: Setup, w: World, w': World, moved: set<nat>)
    requires Inv(c, w) && Grows(w, w')
    requires w'.recs.Keys <= w.recs.Keys + moved
    requires forall id | id in w'.recs && id !in moved :: w'.recs[id] == w.recs[id]
    ensures forall id | id in w'.recs && id !in moved :: RecOk(c, w', w'.recs[id])
  {
    forall id | id in w'.recs && id !in moved
      ensures RecOk(c, w', w'.recs[id])
    {
      RecStays(c, w, w', w.recs[id]);
    }
  }

  lemma SameRecords(c: Setup, w: World, w': World)
    requires GlobalOk(c, w) && w' == w.(recs := w'.recs)
    ensures GlobalOk(c, w')
  {
    GlobalStays(c, w, w');
  }

  lemma GoKeeps(c: Setup, w: World, id: nat, input: Input)
    requires Inv(c, w) && id in w.recs && !w.recs[id].done
    ensures Inv(c, Apply(c, w, Go(id, input))) && Grows(w, Apply(c, w, Go(id, input)))
  {
    var (w1, r') := RecStep(c, w, w.recs[id], input);
    RecStepSound(c, w, w.recs[id], input);
    var w' := w1.(recs := w.recs[id := r']);
    SameRecords(c, w1, w');
    RecStays(c, w1, w', r');
    OthersStay(c, w, w', {id});
  }

  lemma FinishKeeps(c: Setup, w: World, id: nat, fault: Fault)
    requires Inv(c, w) && id in w.recs && w.recs[id].done
    ensures Inv(c, Apply(c, w, Finish(id, fault))) && Grows(w, Apply(c, w, Finish(id, fault)))
  {
    var w1 := Finished(w, w.recs[id], fault);
    FinishSound(c, w, w.recs[id], fault);
    var w' := w1.(recs := w.recs - {id});
    SameRecords(c, w1, w');
    OthersStay(c, w, w', {});
  }

  /** Moves that leave the reconciles in flight alone. */
  lemma WorldKeeps(c: Setup, w: World, w': World)
    requires Inv(c, w) && GlobalOk(c, w') && Grows(w, w') && w'.recs == w.recs
    ensures Inv(c, w')
  {
    OthersStay(c, w, w', {});
  }

  lemma BeginKeeps(c: Setup, w: World, id: nat, kind: Kind)
    requires Inv(c, w) && id !in w.recs && (kind.RoleKind? ==> kind.role in c.roles)
    ensures Inv(c, w.(recs := w.recs[id := Fresh(kind)]))
  {
    var w' := w.(recs := w.recs[id := Fresh(kind)]);
    SameRecords(c, w, w');
    OthersStay(c, w, w', {id});
  }

  lemma CrashKeeps(c: Setup, w: World, id: nat)
    requires Inv(c, w)
    ensures Inv(c, w.(recs := w.recs - {id}))
  {
    SameRecords(c, w, w.(recs := w.recs - {id}));
    OthersStay(c, w, w.(recs := w.recs - {id}), {});
  }

  /** The moves of the environment. */
  lemma WorldMoveKeeps(c: Setup, w: World, m: Move)
    requires Inv(c, w) && (m.TouchCluster? || m.TouchRole? || m.Boots?)
    ensures Inv(c, Apply(c, w, m)) && Grows(w, Apply(c, w, m))
  {
    match m
    case TouchCluster =>
      TouchSound(c, w);
      WorldKeeps(c, w, Apply(c, w, m));
    case TouchRole(role) =>
      if role in w.roles {
        TouchRoleSound(c, w, role);
        WorldKeeps(c, w, Apply(c, w, m));
      }
    case Boots(pod) =>
      if pod in w.remote.joined {
        BootsSound(c, w, pod);
        WorldKeeps(c, w, Apply(c, w, m));
      }
  }

  lemma MoveKeeps(c: Setup, w: World, m: Move)
    requires Inv(c, w)
    ensures Inv(c, Apply(c, w, m)) && Grows(w, Apply(c, w, m))
  {
    match m
    case Begin(id, kind) =>
      if id !in w.recs && (kind.RoleKind? ==> kind.role in c.roles) { BeginKeeps(c, w, id, kind); }
    case Crash(id) => CrashKeeps(c, w, id);
    case Go(id, input) => if id in w.recs && !w.recs[id].done { GoKeeps(c, w, id, input); }
    case Finish(id, fault) => if id in w.recs && w.recs[id].done { FinishKeeps(c, w, id, fault); }
    case _ => WorldMoveKeeps(c, w, m);
  }

  lemma InitialInv(c: Setup, w: World)
    requires Initial(c, w)
    ensures Inv(c, w)
  {}

  /** Every run keeps the invariant and what only grows. */
  lemma {:induction false} RunKeeps(c: Setup, w: World, moves: seq<Move>)
    requires Inv(c, w)
    ensures Inv(c, Run(c, w, moves)) && Grows(w, Run(c, w, moves))
  {
    if |moves| == 0 {
    } else {
      RunKeeps(c, w, moves[..|moves| - 1]);
      MoveKeeps(c, Run(c, w, moves[..|moves| - 1]), moves[|moves| - 1]);
    }
  }

  /** The invariant holds in every reachable state. */
  lemma ReachableInv(c: Setup, w: World)
    requires Reachable(c, w)
    ensures Inv(c, w)
  {
    var start :| ReachableFrom(c, start, w);
    var moves :| w == Run(c, start, moves);
    InitialInv(c, start);
    RunKeeps(c, start, moves);
  }
}
