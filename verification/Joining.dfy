/**
`JoinInstancesStep`: the loop over replicasets, StatefulSets and pods that joins every
instance of a role to the topology through the leader.
*/
module Joining {
  import opened Basics
  import opened ClusterStatus
  import opened Election
  import opened Topology
  import opened Verdicts
  import opened Names

  /** A listed StatefulSet, as far as joining reads it. */
  datatype Item = Item(name: string, deleting: bool)

  datatype Listing = ListFails | Listed(items: seq<Item>)

  function ListAt(lists: seq<Listing>, ordinal: nat): Listing {
    if ordinal < |lists| then lists[ordinal] else ListFails
  }

  /** What one iteration finds: pods, which of them do not report a UUID, and the answers to joins. */
  datatype Answers = Answers(pods: Pods, uuidFails: set<string>, joins: map<string, JoinAnswer>)

  function JoinAnswerFor(a: Answers, pod: string): JoinAnswer {
    if pod in a.joins then a.joins[pod] else JoinAnswer(TransportFails(""), false, false)
  }

  // ---------------------------------------------------------------- the order of the loops

  datatype Visit = NoList | PodVisit(replicaset: nat, pod: string)

  /** What the three loops still meet from the given counters on. A failed list ends them. */
  function WalkFrom(role: RoleShape, lists: seq<Listing>, o: nat, i: nat, p: nat): seq<Visit>
    decreases role.replicasets - o, match ListAt(lists, o) { case ListFails => 0 case Listed(items) => |items| - i },
              role.replicas - p
  {
    if o >= role.replicasets then []
    else
      match ListAt(lists, o)
      case ListFails => [NoList]
      case Listed(items) =>
        if i >= |items| then WalkFrom(role, lists, o + 1, 0, 0)
        else if items[i].deleting || p >= role.replicas then WalkFrom(role, lists, o, i + 1, 0)
        else [PodVisit(o, Dashed(items[i].name, p))] + WalkFrom(role, lists, o, i, p + 1)
  }

  function Walk(role: RoleShape, lists: seq<Listing>): seq<Visit> {
    WalkFrom(role, lists, 0, 0, 0)
  }

  /** A pod the loops are meant to reach: in range, in a listed StatefulSet that is not being deleted. */
  ghost predicate Expected(role: RoleShape, lists: seq<Listing>, o: nat, i: nat, p: nat) {
    && o < role.replicasets && p < role.replicas
    && ListAt(lists, o).Listed? && i < |lists[o].items| && !lists[o].items[i].deleting
  }

  lemma {:induction false} WalkReachesFrom(role: RoleShape, lists: seq<Listing>, o: nat, i: nat, p: nat, o': nat,
                                           i': nat, p': nat)
    requires NoList !in WalkFrom(role, lists, o, i, p)
    requires o < o' || (o == o' && (i < i' || (i == i' && p <= p')))
    requires Expected(role, lists, o', i', p')
    ensures PodVisit(o', Dashed(lists[o'].items[i'].name, p')) in WalkFrom(role, lists, o, i, p)
    decreases role.replicasets - o, match ListAt(lists, o) { case ListFails => 0 case Listed(items) => |items| - i },
              role.replicas - p
  {
    match ListAt(lists, o)
    case ListFails =>
    case Listed(items) =>
      if i >= |items| {
        WalkReachesFrom(role, lists, o + 1, 0, 0, o', i', p');
      } else if items[i].deleting || p >= role.replicas {
        WalkReachesFrom(role, lists, o, i + 1, 0, o', i', p');
      } else if (o, i, p) != (o', i', p') {
        WalkReachesFrom(role, lists, o, i, p + 1, o', i', p');
      }
  }

  /** Without a failed list the loops reach every expected pod. */
  lemma WalkReaches(role: RoleShape, lists: seq<Listing>, o: nat, i: nat, p: nat)
    requires NoList !in Walk(role, lists) && Expected(role, lists, o, i, p)
    ensures PodVisit(o, Dashed(lists[o].items[i].name, p)) in Walk(role, lists)
  {
    WalkReachesFrom(role, lists, 0, 0, 0, o, i, p);
  }

  /** Loops that end regularly listed every ordinal. */
  lemma {:induction false} WalkNeedsLists(role: RoleShape, lists: seq<Listing>, o: nat, i: nat, p: nat, o': nat)
    requires NoList !in WalkFrom(role, lists, o, i, p) && o <= o' < role.replicasets
    ensures ListAt(lists, o').Listed?
    decreases role.replicasets - o, match ListAt(lists, o) { case ListFails => 0 case Listed(items) => |items| - i },
              role.replicas - p
  {
    match ListAt(lists, o)
    case ListFails =>
    case Listed(items) =>
      if o == o' {
      } else if i >= |items| {
        WalkNeedsLists(role, lists, o + 1, 0, 0, o');
      } else if items[i].deleting || p >= role.replicas {
        WalkNeedsLists(role, lists, o, i + 1, 0, o');
      } else {
        WalkNeedsLists(role, lists, o, i, p + 1, o');
      }
  }

  // ---------------------------------------------------------------- one iteration

  /** What an iteration decides before it calls anything that changes the topology. */
  datatype Action = Wait | Skip | Fail(message: string) | CallJoin

  function Inspect(v: Visit, leader: string, booted: set<string>, a: Answers): Action {
    match v
    case NoList => Fail("unable to list StatefulSets")
    case PodVisit(_, pod) =>
      match Look(a.pods, pod)
      case LookupFails => Fail("unable to get pod")
      case Missing => Wait
      case Found(view) =>
        if !view.running || view.deleting then Wait
        else if pod in a.uuidFails then Fail("unable to get instance uuid")
        else if pod in booted then Skip
        else if leader == pod then CallJoin
        else if leader in a.uuidFails then Fail("unable to get leader instance uuid")
        else if leader !in booted then Wait
        else CallJoin
  }

  /** What the spec of the role and of its cluster contributes to a join call. */
  datatype JoinSpec = JoinSpec(
    uuidOf: string -> string,       // the UUID of a replicaset name
    roles: seq<string>, weight: int32, group: string, allRw: bool,
    cluster: string, namespace: string, domain: string, listenPort: int32)

  /** The part of a host name after the pod: cluster, namespace and domain in the order of the DNS. */
  function HostTail(spec: JoinSpec): string {
    "." + spec.cluster + "." + spec.namespace + ".svc." + spec.domain
  }

  function Port(spec: JoinSpec): string { ":" + Print(spec.listenPort) }

  /** `GetAdvertiseURI`. */
  function AdvertiseURI(spec: JoinSpec, pod: string): string { pod + HostTail(spec) + Port(spec) }

  lemma SameTail(a: string, b: string, tail: string)
    requires a + tail == b + tail
    ensures a == b
  {
    assert a == (a + tail)[..|a + tail| - |tail|];
    assert b == (b + tail)[..|b + tail| - |tail|];
  }

  /** No two instances of a cluster advertise the same address. */
  lemma UriTellsPod(spec: JoinSpec, pod: string, pod': string)
    requires AdvertiseURI(spec, pod) == AdvertiseURI(spec, pod')
    ensures pod == pod'
  {
    SameTail(pod + HostTail(spec), pod' + HostTail(spec), Port(spec));
    SameTail(pod, pod', HostTail(spec));
  }

  lemma PortReadsBack(host: string, port: int32)
    ensures var uri := host + (":" + Print(port));
      |host| < |uri| && uri[..|host|] == host && uri[|host|] == ':' && ParseInt32(uri[|host| + 1..]) == Some(port)
  {
    var uri := host + (":" + Print(port));
    assert uri[|host| + 1..] == Print(port);
    ParseOfPrint(port);
  }

  /** The address is the host name, a colon, and the port, which can be read back. */
  lemma UriReadsBack(spec: JoinSpec, pod: string)
    ensures var host, uri := pod + HostTail(spec), AdvertiseURI(spec, pod);
      && |host| < |uri| && uri[..|host|] == host && uri[|host|] == ':'
      && ParseInt32(uri[|host| + 1..]) == Some(spec.listenPort)
  {
    PortReadsBack(pod + HostTail(spec), spec.listenPort);
  }

  /** Cluster a in namespace b of domain c. */
  lemma HostExample()
    ensures HostTail(JoinSpec(name => name, [], 0, "", false, "a", "b", "c", 1)) == ".a.b.svc.c"
  {}

  /** The edit of the topology that a join call asks for. */
  datatype Edit = Edit(alias: string, uuid: string, roles: seq<string>, weight: int32, group: string, allRw: bool,
                       uri: string)

  /** One call of `Join`, and the remote side at the time of the call. */
  datatype Call = Call(leader: string, pod: string, edit: Edit, before: Remote)

  /** One pass of the step: `at(k)` is what the world answers during the k-th iteration, so it may change in between. */
  datatype Pass = Pass(role: RoleShape, spec: JoinSpec, onError: Phase, leader: string, at: nat -> Answers) {
    /** The edit for a pod of the replicaset with this ordinal. */
    function EditFor(replicaset: nat, pod: string): Edit {
      var alias := ReplicasetName(role.name, replicaset);
      Edit(alias, spec.uuidOf(alias), spec.roles, spec.weight, spec.group, spec.allRw, AdvertiseURI(spec, pod))
    }
  }

  /** The state of the loops: the remote side, the calls so far, and what the step will return. */
  datatype Progress = Progress(remote: Remote, calls: seq<Call>, allJoined: bool, phase: Phase,
                               stopped: Option<Verdict>)

  /** What the step does with the outcome of a join call. */
  function Joined(pass: Pass, v: Visit, a: Answers, s: Progress): Progress
    requires v.PodVisit?
  {
    var answer := JoinAnswerFor(a, v.pod);
    var call := Call(pass.leader, v.pod, pass.EditFor(v.replicaset, v.pod), s.remote);
    var s' := s.(remote := AfterJoin(s.remote, v.pod, answer), calls := s.calls + [call]);
    match JoinError(answer.reply)
    case None => s'
    case Some(UnknownRole(_)) => s'.(phase := pass.onError, stopped := Some(COMPLETE))
    case Some(_) => s'.(stopped := Some(Error("unable to join instance")))
  }

  function Iterate(pass: Pass, v: Visit, a: Answers, s: Progress): Progress {
    match Inspect(v, pass.leader, s.remote.booted, a)
    case Wait => s.(allJoined := false)
    case Skip => s
    case Fail(m) => s.(stopped := Some(Error(m)))
    case CallJoin => Joined(pass, v, a, s)
  }

  /** The loops over the remaining visits, the first of which is the k-th. */
  function JoinOver(pass: Pass, visits: seq<Visit>, k: nat, s: Progress): Progress {
    if |visits| == 0 || s.stopped.Some? then s
    else JoinOver(pass, visits[1..], k + 1, Iterate(pass, visits[0], pass.at(k), s))
  }

  /** What the step returns at the end. */
  function Outcome(s: Progress): Verdict {
    match s.stopped
    case Some(v) => v
    case None => if s.allJoined then NEXT_STEP else Requeue(10)
  }

  function Start(remote: Remote, phase: Phase): Progress {
    Progress(remote, [], true, phase, None)
  }

  /** The whole step on values. */
  function JoinInstances(pass: Pass, lists: seq<Listing>, remote: Remote, phase: Phase): Progress {
    JoinOver(pass, Walk(pass.role, lists), 0, Start(remote, phase))
  }

  /** The fold taken one visit further; a stopped fold is finished. */
  lemma OneVisit(pass: Pass, v: Visit, rest: seq<Visit>, k: nat, s: Progress)
    requires s.stopped.None?
    ensures var s' := Iterate(pass, v, pass.at(k), s);
      JoinOver(pass, [v] + rest, k, s) == if s'.stopped.Some? then s' else JoinOver(pass, rest, k + 1, s')
  {
    assert ([v] + rest)[1..] == rest;
  }

  // ---------------------------------------------------------------- when the step lets the run go on

  /** The iteration found its pod up, and the pod had a UUID already or the join succeeded. */
  ghost predicate Settled(pass: Pass, v: Visit, a: Answers, booted: set<string>) {
    Inspect(v, pass.leader, booted, a).Skip? || JoinSucceeds(pass, v, a, booted)
  }

  /** The iteration called `Join` and the call succeeded. */
  ghost predicate JoinSucceeds(pass: Pass, v: Visit, a: Answers, booted: set<string>) {
    v.PodVisit? && Inspect(v, pass.leader, booted, a).CallJoin? && JoinError(JoinAnswerFor(a, v.pod).reply).None?
  }

  /** The state in which the j-th of the remaining visits is made, if none before it stops the loops. */
  ghost function Before(pass: Pass, visits: seq<Visit>, k: nat, s: Progress, j: nat): Progress
    requires j <= |visits|
    decreases j
  {
    if j == 0 then s else Before(pass, visits[1..], k + 1, Iterate(pass, visits[0], pass.at(k), s), j - 1)
  }

  /** The j-th of the remaining visits settles its pod. */
  ghost predicate SettlesAt(pass: Pass, visits: seq<Visit>, k: nat, s: Progress, j: nat) {
    j < |visits| && Settled(pass, visits[j], pass.at(k + j), Before(pass, visits, k, s, j).remote.booted)
  }

  /** The j-th of the remaining visits joins its pod. */
  ghost predicate JoinsAt(pass: Pass, visits: seq<Visit>, k: nat, s: Progress, j: nat) {
    j < |visits| && JoinSucceeds(pass, visits[j], pass.at(k + j), Before(pass, visits, k, s, j).remote.booted)
  }

  ghost predicate AllSettle(pass: Pass, visits: seq<Visit>, k: nat, s: Progress) {
    forall j: nat | j < |visits| :: SettlesAt(pass, visits, k, s, j)
  }

  lemma {:induction false} JoinOverGrows(pass: Pass, visits: seq<Visit>, k: nat, s: Progress)
    ensures var s' := JoinOver(pass, visits, k, s);
      && s.remote.joined <= s'.remote.joined && s.remote.booted <= s'.remote.booted
      && s.remote.vshard == s'.remote.vshard && (s'.allJoined ==> s.allJoined)
      && (s.stopped.None? ==> s'.stopped != Some(NEXT_STEP))
  {
    if |visits| == 0 || s.stopped.Some? {
    } else {
      JoinOverGrows(pass, visits[1..], k + 1, Iterate(pass, visits[0], pass.at(k), s));
    }
  }

  /** A visit settles its pod exactly if it neither stops the loops nor leaves something to wait for. */
  lemma IterateSettles(pass: Pass, v: Visit, a: Answers, s: Progress)
    requires s.stopped.None? && s.allJoined
    ensures var s' := Iterate(pass, v, a, s);
      Settled(pass, v, a, s.remote.booted) <==> s'.stopped.None? && s'.allJoined
  {}

  /** The visits after the first, seen from the first on and seen by themselves. */
  lemma LaterVisit(pass: Pass, visits: seq<Visit>, k: nat, s: Progress, j: nat)
    requires j + 1 < |visits|
    ensures var s' := Iterate(pass, visits[0], pass.at(k), s);
      && (SettlesAt(pass, visits, k, s, j + 1) <==> SettlesAt(pass, visits[1..], k + 1, s', j))
      && (JoinsAt(pass, visits, k, s, j + 1) <==> JoinsAt(pass, visits[1..], k + 1, s', j))
  {
    assert pass.at(k + (j + 1)) == pass.at((k + 1) + j);
  }

  lemma AllSettleFurther(pass: Pass, visits: seq<Visit>, k: nat, s: Progress)
    requires |visits| > 0
    ensures var s' := Iterate(pass, visits[0], pass.at(k), s);
      AllSettle(pass, visits, k, s) <==> SettlesAt(pass, visits, k, s, 0) && AllSettle(pass, visits[1..], k + 1, s')
  {
    var s', rest, k' := Iterate(pass, visits[0], pass.at(k), s), visits[1..], k + 1;
    forall j: nat | 0 < j < |visits|
      ensures SettlesAt(pass, visits, k, s, j) <==> SettlesAt(pass, rest, k', s', j - 1)
    {
      LaterVisit(pass, visits, k, s, j - 1);
    }
    if AllSettle(pass, visits, k, s) {
      forall j: nat | j < |rest|
        ensures SettlesAt(pass, rest, k', s', j)
      {
        assert SettlesAt(pass, visits, k, s, j + 1);
      }
    }
  }

  lemma {:induction false} GoesOnIff(pass: Pass, visits: seq<Visit>, k: nat, s: Progress)
    requires s.stopped.None? && s.allJoined
    ensures Outcome(JoinOver(pass, visits, k, s)) == NEXT_STEP <==> AllSettle(pass, visits, k, s)
  {
    if |visits| == 0 {
    } else {
      var s' := Iterate(pass, visits[0], pass.at(k), s);
      AllSettleFurther(pass, visits, k, s);
      IterateSettles(pass, visits[0], pass.at(k), s);
      if s'.stopped.None? && s'.allJoined {
        GoesOnIff(pass, visits[1..], k + 1, s');
      } else {
        JoinOverGrows(pass, visits[1..], k + 1, s');
      }
    }
  }

  /**
  The step lets the run go on exactly when every visit of the loops settles its pod, each
  judged by the UUIDs that are reported when the loops come to it: a leader that joins
  itself and boots in this very pass can join the others.
  */
  lemma NextStepIffAllSettle(pass: Pass, lists: seq<Listing>, remote: Remote, phase: Phase)
    ensures Outcome(JoinInstances(pass, lists, remote, phase)) == NEXT_STEP <==>
            AllSettle(pass, Walk(pass.role, lists), 0, Start(remote, phase))
  {
    GoesOnIff(pass, Walk(pass.role, lists), 0, Start(remote, phase));
  }

  // ---------------------------------------------------------------- what that means for a pod

  /** The pod was there, running and not being deleted. */
  ghost predicate WasUp(a: Answers, pod: string) {
    Look(a.pods, pod).Found? && a.pods[pod].view.running && !a.pods[pod].view.deleting
  }

  /** Some visit of this pod joined it. */
  ghost predicate JoinedIn(pass: Pass, visits: seq<Visit>, k: nat, s: Progress, pod: string) {
    exists j: nat :: JoinsAt(pass, visits, k, s, j) && visits[j].pod == pod
  }

  lemma JoinedInRest(pass: Pass, visits: seq<Visit>, k: nat, s: Progress, pod: string)
    requires |visits| > 0 && JoinedIn(pass, visits[1..], k + 1, Iterate(pass, visits[0], pass.at(k), s), pod)
    ensures JoinedIn(pass, visits, k, s, pod)
  {
    var s' := Iterate(pass, visits[0], pass.at(k), s);
    var j: nat :| JoinsAt(pass, visits[1..], k + 1, s', j) && visits[1..][j].pod == pod;
    LaterVisit(pass, visits, k, s, j);
    assert JoinsAt(pass, visits, k, s, j + 1);
  }

  /** While visits settle, an instance starts to report a UUID only by being joined. */
  lemma {:induction false} UuidComesByJoin(pass: Pass, visits: seq<Visit>, k: nat, s: Progress, j: nat, pod: string)
    requires j <= |visits| && AllSettle(pass, visits, k, s)
    requires pod in Before(pass, visits, k, s, j).remote.booted
    ensures pod in s.remote.booted || JoinedIn(pass, visits, k, s, pod)
    decreases j
  {
    if j == 0 {
    } else {
      var s' := Iterate(pass, visits[0], pass.at(k), s);
      AllSettleFurther(pass, visits, k, s);
      UuidComesByJoin(pass, visits[1..], k + 1, s', j - 1, pod);
      if JoinedIn(pass, visits[1..], k + 1, s', pod) {
        JoinedInRest(pass, visits, k, s, pod);
      } else if pod !in s.remote.booted {
        assert JoinsAt(pass, visits, k, s, 0);
      }
    }
  }

  lemma JoinPutsIn(pass: Pass, v: Visit, a: Answers, s: Progress)
    requires JoinSucceeds(pass, v, a, s.remote.booted)
    ensures v.pod in Iterate(pass, v, a, s).remote.joined
  {}

  /** A pod that a visit joined is part of the topology at the end. */
  lemma {:induction false} JoinedStays(pass: Pass, visits: seq<Visit>, k: nat, s: Progress, j: nat)
    requires s.stopped.None? && s.allJoined && AllSettle(pass, visits, k, s) && JoinsAt(pass, visits, k, s, j)
    ensures visits[j].pod in JoinOver(pass, visits, k, s).remote.joined
    decreases j
  {
    var s', rest := Iterate(pass, visits[0], pass.at(k), s), visits[1..];
    assert JoinOver(pass, visits, k, s) == JoinOver(pass, rest, k + 1, s');
    if j == 0 {
      assert pass.at(k + 0) == pass.at(k);
      JoinPutsIn(pass, visits[0], pass.at(k), s);
      JoinOverGrows(pass, rest, k + 1, s');
    } else {
      AllSettleFurther(pass, visits, k, s);
      assert SettlesAt(pass, visits, k, s, 0) && pass.at(k + 0) == pass.at(k);
      IterateSettles(pass, visits[0], pass.at(k), s);
      LaterVisit(pass, visits, k, s, j - 1);
      JoinedStays(pass, rest, k + 1, s', j - 1);
    }
  }

  /** Some visit found the pod up. */
  ghost predicate FoundUp(pass: Pass, visits: seq<Visit>, pod: string) {
    exists j: nat :: j < |visits| && visits[j].PodVisit? && visits[j].pod == pod && WasUp(pass.at(j), pod)
  }

  /** The pod was found up, and it had a UUID when the pass began or was joined by a successful call in it. */
  ghost predicate HasJoined(pass: Pass, lists: seq<Listing>, remote: Remote, phase: Phase, pod: string) {
    var walk := Walk(pass.role, lists);
    && FoundUp(pass, walk, pod)
    && (pod in remote.booted || JoinedIn(pass, walk, 0, Start(remote, phase), pod))
  }

  lemma SettledMeansJoined(pass: Pass, lists: seq<Listing>, remote: Remote, phase: Phase, j: nat)
    requires AllSettle(pass, Walk(pass.role, lists), 0, Start(remote, phase)) && j < |Walk(pass.role, lists)|
    ensures var v := Walk(pass.role, lists)[j]; v.PodVisit? && HasJoined(pass, lists, remote, phase, v.pod)
  {
    var walk := Walk(pass.role, lists);
    assert SettlesAt(pass, walk, 0, Start(remote, phase), j);
    assert pass.at(0 + j) == pass.at(j);
    if JoinsAt(pass, walk, 0, Start(remote, phase), j) {
    } else {
      UuidComesByJoin(pass, walk, 0, Start(remote, phase), j, walk[j].pod);
    }
  }

  /**
  The contract of the step: when it lets the run go on, every list succeeded, and every
  expected pod was found up and either had a UUID when the pass began or was joined by a
  successful call of this pass.
  */
  lemma NextStepMeansAllJoined(pass: Pass, lists: seq<Listing>, remote: Remote, phase: Phase)
    requires Outcome(JoinInstances(pass, lists, remote, phase)) == NEXT_STEP
    ensures forall o: nat | o < pass.role.replicasets :: ListAt(lists, o).Listed?
    ensures forall o: nat, i: nat, p: nat | Expected(pass.role, lists, o, i, p) ::
      HasJoined(pass, lists, remote, phase, Dashed(lists[o].items[i].name, p))
  {
    var walk := Walk(pass.role, lists);
    NextStepIffAllSettle(pass, lists, remote, phase);
    assert NoList !in walk by {
      forall j: nat | j < |walk| ensures walk[j] != NoList { SettledMeansJoined(pass, lists, remote, phase, j); }
    }
    forall o: nat | o < pass.role.replicasets
      ensures ListAt(lists, o).Listed?
    {
      WalkNeedsLists(pass.role, lists, 0, 0, 0, o);
    }
    forall o: nat, i: nat, p: nat | Expected(pass.role, lists, o, i, p)
      ensures HasJoined(pass, lists, remote, phase, Dashed(lists[o].items[i].name, p))
    {
      WalkReaches(pass.role, lists, o, i, p);
      var j :| 0 <= j < |walk| && walk[j] == PodVisit(o, Dashed(lists[o].items[i].name, p));
      SettledMeansJoined(pass, lists, remote, phase, j);
    }
  }

  /** Where an instance with a UUID is in the topology, all of these pods are in it at the end. */
  lemma HasJoinedMeansInTopology(pass: Pass, lists: seq<Listing>, remote: Remote, phase: Phase, pod: string)
    requires remote.booted <= remote.joined && HasJoined(pass, lists, remote, phase, pod)
    requires Outcome(JoinInstances(pass, lists, remote, phase)) == NEXT_STEP
    ensures pod in JoinInstances(pass, lists, remote, phase).remote.joined
  {
    var walk := Walk(pass.role, lists);
    NextStepIffAllSettle(pass, lists, remote, phase);
    JoinOverGrows(pass, walk, 0, Start(remote, phase));
    if pod !in remote.booted {
      var j: nat :| JoinsAt(pass, walk, 0, Start(remote, phase), j) && walk[j].pod == pod;
      JoinedStays(pass, walk, 0, Start(remote, phase), j);
    }
  }

  // ---------------------------------------------------------------- which calls are made

  /** The pod is not there, or not up. */
  predicate IsDown(a: Answers, pod: string) {
    || pod !in a.pods || a.pods[pod].Missing?
    || (a.pods[pod].Found? && (!a.pods[pod].view.running || a.pods[pod].view.deleting))
  }

  /** The pod is up, its UUID can be read, and there is none yet. */
  ghost predicate LacksUuid(v: Visit, a: Answers, booted: set<string>) {
    v.PodVisit? && WasUp(a, v.pod) && v.pod !in a.uuidFails && v.pod !in booted
  }

  /** The pod lacks a UUID, and the leader is that pod or one whose UUID can be read and is there. */
  ghost predicate Due(leader: string, v: Visit, a: Answers, booted: set<string>) {
    LacksUuid(v, a, booted) && (leader == v.pod || (leader !in a.uuidFails && leader in booted))
  }

  /** The pod is down, or the leader it needs can be read and has no UUID itself. */
  ghost predicate NotYet(leader: string, v: Visit, a: Answers, booted: set<string>) {
    v.PodVisit? &&
    (IsDown(a, v.pod)
     || (LacksUuid(v, a, booted) && leader != v.pod && leader !in a.uuidFails && leader !in booted))
  }

  /** A list, a pod or a UUID that is needed cannot be read. */
  ghost predicate ReadFails(leader: string, v: Visit, a: Answers, booted: set<string>) {
    || v.NoList?
    || (v.pod in a.pods && a.pods[v.pod].LookupFails?)
    || (WasUp(a, v.pod) && v.pod in a.uuidFails)
    || (LacksUuid(v, a, booted) && leader != v.pod && leader in a.uuidFails)
  }

  /** The pod is up and reports a UUID. */
  ghost predicate HasUuid(v: Visit, a: Answers, booted: set<string>) {
    v.PodVisit? && WasUp(a, v.pod) && v.pod !in a.uuidFails && v.pod in booted
  }

  /** The loops end with an error that is to be tried again. */
  predicate EndsInError(s: Progress) {
    s.stopped.Some? && s.stopped.value.err.Some? && s.stopped.value.res.None?
  }

  /** The call that a due visit makes. */
  ghost function CallOf(pass: Pass, v: Visit, remote: Remote): Call
    requires v.PodVisit?
  {
    Call(pass.leader, v.pod, pass.EditFor(v.replicaset, v.pod), remote)
  }

  /**
  One iteration by what it finds. It calls `Join` exactly if the pod is due; a pod that is
  not yet due is noted and passed, one with a UUID is passed, and a failed read ends the
  loops with an error.
  */
  lemma IterateByPod(pass: Pass, v: Visit, a: Answers, s: Progress)
    requires s.stopped.None?
    ensures var s' := Iterate(pass, v, a, s);
      var booted := s.remote.booted;
      && (if Due(pass.leader, v, a, booted) then s'.calls == s.calls + [CallOf(pass, v, s.remote)]
          && s'.allJoined == s.allJoined
          else s'.calls == s.calls && s'.remote == s.remote && s'.phase == s.phase)
      && (NotYet(pass.leader, v, a, booted) ==> s' == s.(allJoined := false))
      && (HasUuid(v, a, booted) ==> s' == s)
      && (ReadFails(pass.leader, v, a, booted) ==> EndsInError(s'))
      && (Due(pass.leader, v, a, booted) || NotYet(pass.leader, v, a, booted)
          || HasUuid(v, a, booted) || ReadFails(pass.leader, v, a, booted))
  {}

  /**
  What a due visit makes of the reply: success joins the pod and goes on, an unknown role
  sets the error phase and ends the run for good, every other reply is an error to try again.
  */
  lemma CallByReply(pass: Pass, v: Visit, a: Answers, s: Progress)
    requires s.stopped.None? && Due(pass.leader, v, a, s.remote.booted)
    ensures var s' := Iterate(pass, v, a, s);
      var reply := JoinAnswerFor(a, v.pod).reply;
      if reply == Answer(true, None) then s'.stopped.None? && v.pod in s'.remote.joined && s'.phase == s.phase
      else if JoinError(reply).Some? && JoinError(reply).value.UnknownRole?
      then s'.stopped == Some(COMPLETE) && s'.phase == pass.onError
      else EndsInError(s') && s'.phase == s.phase
  {
    JoinErrorByReply(JoinAnswerFor(a, v.pod).reply);
  }

  /** The calls of the due visits, in order, up to the visit that stops the loops. */
  ghost function DueCalls(pass: Pass, visits: seq<Visit>, k: nat, s: Progress): seq<Call> {
    if |visits| == 0 || s.stopped.Some? then []
    else
      var v, a := visits[0], pass.at(k);
      (if Due(pass.leader, v, a, s.remote.booted) then [CallOf(pass, v, s.remote)] else [])
      + DueCalls(pass, visits[1..], k + 1, Iterate(pass, v, a, s))
  }

  lemma Regrouped(a: seq<Call>, b: seq<Call>, c: seq<Call>)
    ensures (a + b) + c == a + (b + c)
  {}

  /** The calls of a pass are those of its due visits, no more and no fewer, in the order of the loops. */
  lemma {:induction false} CallsAreThoseDue(pass: Pass, visits: seq<Visit>, k: nat, s: Progress)
    ensures JoinOver(pass, visits, k, s).calls == s.calls + DueCalls(pass, visits, k, s)
  {
    if |visits| == 0 || s.stopped.Some? {
    } else {
      var s' := Iterate(pass, visits[0], pass.at(k), s);
      IterateByPod(pass, visits[0], pass.at(k), s);
      CallsAreThoseDue(pass, visits[1..], k + 1, s');
      var first := if Due(pass.leader, visits[0], pass.at(k), s.remote.booted)
        then [CallOf(pass, visits[0], s.remote)] else [];
      Regrouped(s.calls, first, DueCalls(pass, visits[1..], k + 1, s'));
    }
  }

  /** The loops come to the j-th of the remaining visits, and its pod is due then. */
  ghost predicate DueAt(pass: Pass, visits: seq<Visit>, k: nat, s: Progress, j: nat) {
    && j < |visits| && Before(pass, visits, k, s, j).stopped.None?
    && Due(pass.leader, visits[j], pass.at(k + j), Before(pass, visits, k, s, j).remote.booted)
  }

  lemma {:induction false} StoppedStays(pass: Pass, visits: seq<Visit>, k: nat, s: Progress, j: nat)
    requires j <= |visits| && s.stopped.Some?
    ensures Before(pass, visits, k, s, j).stopped.Some?
    decreases j
  {
    if j == 0 {
    } else {
      StoppedStays(pass, visits[1..], k + 1, Iterate(pass, visits[0], pass.at(k), s), j - 1);
    }
  }

  /** Every pod that is due when the loops come to it is called for at that visit. */
  lemma {:induction false} DueVisitIsCalled(pass: Pass, visits: seq<Visit>, k: nat, s: Progress, j: nat)
    requires DueAt(pass, visits, k, s, j)
    ensures CallOf(pass, visits[j], Before(pass, visits, k, s, j).remote) in JoinOver(pass, visits, k, s).calls
    decreases j
  {
    if s.stopped.Some? { StoppedStays(pass, visits, k, s, j); }
    var s' := Iterate(pass, visits[0], pass.at(k), s);
    CallsAreThoseDue(pass, visits, k, s);
    if j == 0 {
      assert pass.at(k + 0) == pass.at(k);
    } else {
      assert pass.at(k + j) == pass.at((k + 1) + (j - 1));
      DueVisitIsCalled(pass, visits[1..], k + 1, s', j - 1);
      CallsAreThoseDue(pass, visits[1..], k + 1, s');
      IterateByPod(pass, visits[0], pass.at(k), s);
    }
  }

  /** The visit neither meets a failed read nor makes a call that fails. */
  ghost predicate Calm(pass: Pass, v: Visit, a: Answers, booted: set<string>) {
    && !ReadFails(pass.leader, v, a, booted)
    && (Due(pass.leader, v, a, booted) ==> JoinAnswerFor(a, v.pod).reply == Answer(true, None))
  }

  ghost predicate CalmAt(pass: Pass, visits: seq<Visit>, k: nat, s: Progress, j: nat) {
    j < |visits| && Calm(pass, visits[j], pass.at(k + j), Before(pass, visits, k, s, j).remote.booted)
  }

  ghost predicate NotYetAt(pass: Pass, visits: seq<Visit>, k: nat, s: Progress, j: nat) {
    j < |visits| && NotYet(pass.leader, visits[j], pass.at(k + j), Before(pass, visits, k, s, j).remote.booted)
  }

  lemma LaterCalm(pass: Pass, visits: seq<Visit>, k: nat, s: Progress, j: nat)
    requires j + 1 < |visits|
    ensures var s' := Iterate(pass, visits[0], pass.at(k), s);
      && (CalmAt(pass, visits, k, s, j + 1) <==> CalmAt(pass, visits[1..], k + 1, s', j))
      && (NotYetAt(pass, visits, k, s, j + 1) <==> NotYetAt(pass, visits[1..], k + 1, s', j))
  {
    assert pass.at(k + (j + 1)) == pass.at((k + 1) + j);
  }

  /** A pass in which nothing fails but some pod is not yet due is tried again soon. */
  lemma {:induction false} WaitingIsRequeued(pass: Pass, visits: seq<Visit>, k: nat, s: Progress)
    requires s.stopped.None? && forall j: nat | j < |visits| :: CalmAt(pass, visits, k, s, j)
    requires !s.allJoined || exists j: nat :: NotYetAt(pass, visits, k, s, j)
    ensures Outcome(JoinOver(pass, visits, k, s)) == Requeue(10)
  {
    if |visits| == 0 {
    } else {
      var s', rest, k' := Iterate(pass, visits[0], pass.at(k), s), visits[1..], k + 1;
      IterateByPod(pass, visits[0], pass.at(k), s);
      assert CalmAt(pass, visits, k, s, 0) && pass.at(k + 0) == pass.at(k);
      if Due(pass.leader, visits[0], pass.at(k), s.remote.booted) { CallByReply(pass, visits[0], pass.at(k), s); }
      forall j: nat | j < |rest|
        ensures CalmAt(pass, rest, k', s', j)
      {
        assert CalmAt(pass, visits, k, s, j + 1);
        LaterCalm(pass, visits, k, s, j);
      }
      if s.allJoined && s'.allJoined {
        var j: nat :| NotYetAt(pass, visits, k, s, j);
        assert j > 0;
        LaterCalm(pass, visits, k, s, j - 1);
      }
      WaitingIsRequeued(pass, rest, k', s');
    }
  }

  /** The visit is to a pod the loops are meant to reach. */
  ghost predicate Meant(role: RoleShape, lists: seq<Listing>, v: Visit) {
    v.PodVisit? && exists i: nat, p: nat ::
      Expected(role, lists, v.replicaset, i, p) && v.pod == Dashed(lists[v.replicaset].items[i].name, p)
  }

  lemma {:induction false} WalkIsMeant(role: RoleShape, lists: seq<Listing>, o: nat, i: nat, p: nat, v: Visit)
    requires v in WalkFrom(role, lists, o, i, p) && v.PodVisit?
    ensures Meant(role, lists, v)
    decreases role.replicasets - o, match ListAt(lists, o) { case ListFails => 0 case Listed(items) => |items| - i },
              role.replicas - p
  {
    var items := lists[o].items;
    if i >= |items| {
      WalkIsMeant(role, lists, o + 1, 0, 0, v);
    } else if items[i].deleting || p >= role.replicas {
      WalkIsMeant(role, lists, o, i + 1, 0, v);
    } else if v == PodVisit(o, Dashed(items[i].name, p)) {
      assert Expected(role, lists, o, i, p);
    } else {
      WalkIsMeant(role, lists, o, i, p + 1, v);
    }
  }

  /** The call is for the visited pod, under the alias and UUID of the visited replicaset, with the role's settings. */
  ghost predicate CallFor(pass: Pass, v: Visit, c: Call) {
    && v.PodVisit? && c.pod == v.pod
    && c.edit.alias == ReplicasetName(pass.role.name, v.replicaset) && c.edit.uuid == pass.spec.uuidOf(c.edit.alias)
    && c.edit.roles == pass.spec.roles && c.edit.weight == pass.spec.weight && c.edit.group == pass.spec.group
    && c.edit.allRw == pass.spec.allRw && c.edit.uri == AdvertiseURI(pass.spec, v.pod)
  }

  /**
  A call is proper when it is for a visited pod and its leader has a UUID at that time or is
  itself the pod to be joined.
  */
  ghost predicate Proper(pass: Pass, walk: seq<Visit>, c: Call) {
    && c.leader == pass.leader && (c.leader in c.before.booted || c.leader == c.pod)
    && c.pod !in c.before.booted
    && exists v :: v in walk && CallFor(pass, v, c)
  }

  ghost predicate AllProper(pass: Pass, walk: seq<Visit>, s: Progress) {
    forall c | c in s.calls :: Proper(pass, walk, c)
  }

  /** An iteration makes at most one call, and a proper one. */
  lemma IterateIsProper(pass: Pass, walk: seq<Visit>, v: Visit, a: Answers, s: Progress)
    requires AllProper(pass, walk, s) && v in walk
    ensures AllProper(pass, walk, Iterate(pass, v, a, s))
  {
    if Inspect(v, pass.leader, s.remote.booted, a).CallJoin? {
      var s' := Iterate(pass, v, a, s);
      var c := s'.calls[|s.calls|];
      assert CallFor(pass, v, c);
      assert s'.calls == s.calls + [c];
    }
  }

  /**
  Every join call of a pass goes through the given leader, which at that time either has a
  UUID or is joining itself, and is for a visited pod without one, under the alias and UUID
  of its replicaset.
  */
  lemma {:induction false} CallsAreProper(pass: Pass, walk: seq<Visit>, visits: seq<Visit>, k: nat, s: Progress)
    requires AllProper(pass, walk, s) && forall v | v in visits :: v in walk
    ensures AllProper(pass, walk, JoinOver(pass, visits, k, s))
  {
    if |visits| == 0 || s.stopped.Some? {
    } else {
      assert visits[0] in visits && forall v | v in visits[1..] :: v in visits;
      IterateIsProper(pass, walk, visits[0], pass.at(k), s);
      CallsAreProper(pass, walk, visits[1..], k + 1, Iterate(pass, visits[0], pass.at(k), s));
    }
  }

  // ---------------------------------------------------------------- the operator's code

  /** The remote cluster as an object that calls change. */
  class Cartridge {
    var remote: Remote
    var calls: seq<Call>

    constructor (r: Remote)
      ensures remote == r && calls == []
    {
      remote, calls := r, [];
    }

    method Join(leader: string, pod: string, edit: Edit, answer: JoinAnswer) returns (err: Option<TopologyError>)
      modifies this
      ensures remote == AfterJoin(old(remote), pod, answer)
      ensures calls == old(calls) + [Call(leader, pod, edit, old(remote))]
      ensures err == JoinError(answer.reply)
    {
      calls := calls + [Call(leader, pod, edit, remote)];
      remote := AfterJoin(remote, pod, answer);
      err := JoinError(answer.reply);
    }

    /** An instance that has not booted reports the empty UUID. */
    method HasUUID(pod: string, a: Answers) returns (r: Option<bool>)
      ensures r == if pod in a.uuidFails then None else Some(pod in remote.booted)
    {
      r := if pod in a.uuidFails then None else Some(pod in remote.booted);
    }
  }

  class RoleObject {
    const shape: RoleShape
    const spec: JoinSpec
    var phase: Phase

    constructor (shape: RoleShape, spec: JoinSpec, phase: Phase)
      ensures this.shape == shape && this.spec == spec && this.phase == phase
    {
      this.shape, this.spec, this.phase := shape, spec, phase;
    }
  }

  class JoinInstancesStep {
    const onError: Phase
    const lists: seq<Listing>
    const at: nat -> Answers

    constructor (onError: Phase, lists: seq<Listing>, at: nat -> Answers)
      ensures this.onError == onError && this.lists == lists && this.at == at
    {
      this.onError, this.lists, this.at := onError, lists, at;
    }

    function PassOf(role: RoleObject, leader: string): Pass { Pass(role.shape, role.spec, onError, leader, at) }

    /** The state of the loops as a value. */
    ghost function Now(role: RoleObject, topology: Cartridge, before: seq<Call>, allJoined: bool,
                       stopped: Option<Verdict>): Progress
      reads role, topology
      requires before <= topology.calls
    {
      Progress(topology.remote, topology.calls[|before|..], allJoined, role.phase, stopped)
    }

    /** After k iterations the loops stand at these counters, and the rest of them gives `result`. */
    ghost predicate OnTrack(role: RoleObject, leader: string, topology: Cartridge, before: seq<Call>, allJoined: bool,
                            k: nat, o: nat, i: nat, p: nat, result: Progress)
      reads role, topology
    {
      && before <= topology.calls
      && JoinOver(PassOf(role, leader), WalkFrom(role.shape, lists, o, i, p), k,
                  Now(role, topology, before, allJoined, None)) == result
    }

    method Reconcile(role: RoleObject, leader: string, topology: Cartridge) returns (v: Verdict)
      modifies role, topology
      ensures old(topology.calls) <= topology.calls
      ensures var s := JoinInstances(PassOf(role, leader), lists, old(topology.remote), old(role.phase));
        v == Outcome(s) && topology.remote == s.remote && role.phase == s.phase
            && topology.calls == old(topology.calls) + s.calls
    {
      ghost var before := topology.calls;
      ghost var result := JoinInstances(PassOf(role, leader), lists, topology.remote, role.phase);
      var allJoined, k, stop := true, 0, None;
      var replicasets: nat := if role.shape.replicasets < 0 then 0 else role.shape.replicasets;

      assert Now(role, topology, before, allJoined, None) == Start(topology.remote, role.phase);
      for stsOrdinal := 0 to replicasets
        invariant OnTrack(role, leader, topology, before, allJoined, k, stsOrdinal, 0, 0, result)
      {
        var list := ListAt(lists, stsOrdinal);
        if list.ListFails? {
          assert WalkFrom(role.shape, lists, stsOrdinal, 0, 0) == [NoList] + [];
          OneVisit(PassOf(role, leader), NoList, [], k, Now(role, topology, before, allJoined, None));
          return Error("unable to list StatefulSets");
        }
        for i := 0 to |list.items|
          invariant OnTrack(role, leader, topology, before, allJoined, k, stsOrdinal, i, 0, result)
        {
          if list.items[i].deleting { continue; }
          stop, allJoined, k := JoinPods(role, leader, topology, stsOrdinal, i, allJoined, k, before, result);
          if stop.Some? { return stop.value; }
        }
      }
      return if allJoined then NEXT_STEP else Requeue(10);
    }

    /** The loop over the pods of one StatefulSet. */
    method JoinPods(role: RoleObject, leader: string, topology: Cartridge, stsOrdinal: nat, i: nat, allJoined: bool,
                    k: nat, ghost before: seq<Call>, ghost result: Progress)
      returns (stop: Option<Verdict>, allJoined': bool, k': nat)
      requires stsOrdinal < role.shape.replicasets
      requires ListAt(lists, stsOrdinal).Listed? && i < |lists[stsOrdinal].items|
               && !lists[stsOrdinal].items[i].deleting
      requires OnTrack(role, leader, topology, before, allJoined, k, stsOrdinal, i, 0, result)
      modifies role, topology
      ensures before <= topology.calls
      ensures if stop.Some? then Now(role, topology, before, allJoined', stop) == result
              else OnTrack(role, leader, topology, before, allJoined', k', stsOrdinal, i + 1, 0, result)
    {
      allJoined', k' := allJoined, k;
      var replicas: nat := if role.shape.replicas < 0 then 0 else role.shape.replicas;
      for podOrdinal := 0 to replicas
        invariant OnTrack(role, leader, topology, before, allJoined', k', stsOrdinal, i, podOrdinal, result)
      {
        var podName := Dashed(lists[stsOrdinal].items[i].name, podOrdinal);
        OneVisit(PassOf(role, leader), PodVisit(stsOrdinal, podName),
                 WalkFrom(role.shape, lists, stsOrdinal, i, podOrdinal + 1),
                 k', Now(role, topology, before, allJoined', None));
        stop, allJoined' := VisitPod(role, leader, topology, stsOrdinal, podName, at(k'), allJoined', before);
        k' := k' + 1;
        if stop.Some? { return; }
      }
      stop := None;
    }

    /** The body of the innermost loop. */
    method VisitPod(role: RoleObject, leader: string, topology: Cartridge, stsOrdinal: nat, podName: string,
                    a: Answers, allJoined: bool, ghost before: seq<Call>)
      returns (stop: Option<Verdict>, allJoined': bool)
      requires before <= topology.calls
      modifies role, topology
      ensures before <= topology.calls
      ensures Now(role, topology, before, allJoined', stop) ==
              Iterate(PassOf(role, leader), PodVisit(stsOrdinal, podName), a,
                      old(Now(role, topology, before, allJoined, None)))
    {
      var pod := Look(a.pods, podName);
      if pod.LookupFails? { return Some(Error("unable to get pod")), allJoined; }
      if pod.Missing? { return None, false; }
      if !pod.view.running || pod.view.deleting { return None, false; }
      var hasUUID := topology.HasUUID(podName, a);
      if hasUUID.None? { return Some(Error("unable to get instance uuid")), allJoined; }
      if !hasUUID.value {
        if leader != podName {
          var leaderUUID := topology.HasUUID(leader, a);
          if leaderUUID.None? { return Some(Error("unable to get leader instance uuid")), allJoined; }
          if !leaderUUID.value { return None, false; }
        }
        var alias := ReplicasetName(role.shape.name, stsOrdinal);
        var spec := role.spec;
        var edit := Edit(alias, spec.uuidOf(alias), spec.roles, spec.weight, spec.group, spec.allRw,
                         AdvertiseURI(spec, podName));
        var err := topology.Join(leader, podName, edit, JoinAnswerFor(a, podName));
        if err.Some? {
          if err.value.UnknownRole? {
            role.phase := onError;
            return Some(COMPLETE), allJoined;
          }
          return Some(Error("unable to join instance")), allJoined;
        }
      }
      return None, allJoined;
    }
  }
}
