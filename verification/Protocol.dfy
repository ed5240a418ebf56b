/**
The three reconcilers as one transition system. Any number of reconciles of a Cluster,
its Roles and its CartridgeConfigs are in flight at once; between any two of their
transitions other reconciles run, the world changes, or the reconcile is lost in a crash.

Environment:
- a read returns some version that was persisted at one time, not necessarily the last;
- a status write succeeds only on the current version, and its request or reply may be lost;
- specs do not change during a run, and only the operator writes status;
- a joined instance reports a UUID at some time after the join and keeps it;
- an instance that reports itself configured has a UUID;
- a successful list of the StatefulSets of an ordinal contains the one the role created
  for it, and that one is not being deleted.
Everything else, in particular every answer of a pod or of cartridge, is arbitrary.
*/
module Protocol {
  import opened Basics
  import opened ClusterStatus
  import opened Election
  import opened Topology
  import opened Verdicts
  import opened Gates
  import Joining
  import Names
  import S = Steps

  /** What is fixed during a run: the foreign leader of the cluster spec and its roles by name. */
  datatype Setup = Setup(foreign: string, roles: map<string, RoleShape>)

  ghost predicate WellFormed(c: Setup) {
    forall name | name in c.roles :: c.roles[name].name == name
  }

  datatype Kind = ClusterKind | RoleKind(role: string) | ConfigKind

  /** The position of a join step in its loops. */
  datatype Loops = Loops(walk: seq<Joining.Visit>, cursor: nat, allJoined: bool, calling: bool)

  /**
  One reconcile: its step, whether it is over and about to write its status, the version
  it read of its own object, its own phase (for a cluster, part of the copy), its copy of
  the cluster, the leader it was given, and what some of its steps found.
  */
  datatype Rec = Rec(kind: Kind, pc: nat, done: bool, fetched: bool, own: nat, phase: Phase,
                     copy: Option<Copy>, leader: string, listed: seq<RoleItem>, loops: Option<Loops>)

  /** A reconcile based on cluster version `version` found its effective leader `pod` in the state `view`. */
  datatype Observation = Observation(version: nat, pod: string, view: PodView)

  datatype JoinCall = JoinCall(leader: string, pod: string, sawBootstrapped: bool, before: Remote, after: Remote)

  datatype BootstrapCall = BootstrapCall(leader: string, listed: seq<RoleItem>, joined: set<string>)

  /** The persisted and remote state, the reconciles in flight, and a record of what was done. */
  datatype World = World(
    versions: History,
    roles: map<string, seq<Phase>>,
    remote: Remote,
    recs: map<nat, Rec>,
    founder: string,                // the first effective leader there was
    unfit: set<Observation>,
    joins: seq<JoinCall>,
    bootstraps: seq<BootstrapCall>)

  datatype Input =
    | Pass
    | Stop
    | Read(version: nat)
    | Answer(roles: Option<seq<RoleShape>>, pods: Pods, fault: Fault)
    | Views(views: seq<RolesView>)
    | Fate(fate: BootstrapFate)
    | Lists(lists: seq<Joining.Listing>)
    | Looked(answers: Joining.Answers)
    | Replied(join: JoinAnswer)

  datatype Move =
    | TouchCluster                  // someone changes the object's metadata: a new version, the same status
    | TouchRole(role: string)
    | Boots(pod: string)            // a joined instance starts to report its UUID
    | Begin(id: nat, kind: Kind)
    | Crash(id: nat)
    | Go(id: nat, input: Input)
    | Finish(id: nat, fault: Fault)

  function StepsOf(k: Kind): seq<S.Step> {
    match k
    case ClusterKind => S.CLUSTER_STEPS
    case RoleKind(_) => S.ROLE_STEPS
    case ConfigKind => S.CONFIG_STEPS
  }

  function Fresh(k: Kind): Rec {
    Rec(k, 0, false, false, 0, Unset, None, "", [], None)
  }

  function Advance(r: Rec): Rec { r.(pc := r.pc + 1) }

  function Over(r: Rec): Rec { r.(done := true) }

  // ---------------------------------------------------------------- steps without a gate

  function PhaseOf(r: Rec): Phase {
    if r.kind.ClusterKind? && r.copy.Some? then r.copy.value.status.phase else r.phase
  }

  function WithPhase(r: Rec, p: Phase): Rec {
    if r.kind.ClusterKind? then
      if r.copy.Some? then r.(copy := Some(r.copy.value.(status := r.copy.value.status.(phase := p)))) else r
    else r.(phase := p)
  }

  function LocalStep(r: Rec, step: S.Step): Rec {
    var local := S.Perform(step, S.GateAnswer(NEXT_STEP, false), S.Local(PhaseOf(r), true));
    Advance(WithPhase(r, local.phase))
  }

  // ---------------------------------------------------------------- what the environment may answer

  /** An instance that reports itself configured has a UUID. */
  predicate HonestPods(pods: Pods, booted: set<string>) {
    forall name | name in pods && pods[name].Found? && pods[name].view.configured.Yes? :: name in booted
  }

  /** Every listed role is shown at a phase it had at one time. */
  predicate HonestViews(views: seq<RolesView>, roles: map<string, seq<Phase>>) {
    forall v | v in views && v.Roles? ::
      forall item | item in v.items :: item.name in roles && item.phase in roles[item.name]
  }

  /** A list of an ordinal's StatefulSets shows the one the role created for it. */
  predicate ReflectsCreates(shape: RoleShape, lists: seq<Joining.Listing>) {
    forall o: nat | o < |lists| && o < shape.replicasets && lists[o].Listed? ::
      Joining.Item(Names.ReplicasetName(shape.name, o), false) in lists[o].items
  }

  // ---------------------------------------------------------------- gates

  /** The items of the listing that opened the gate. */
  function OpeningItems(expected: seq<Phase>, views: seq<RolesView>): seq<RoleItem> {
    if |expected| == 0 || |views| == 0 || views[0].RolesFail? then []
    else if AllAtPhase(views[0].items, expected[0]) then views[0].items
    else OpeningItems(expected[1..], views[1..])
  }

  function Founded(founder: string, h: History): string {
    if founder == "" then Last(h).leader else founder
  }

  /** The world once what the gate saw of an unfit leader is on record. */
  function Observed(c: Setup, w: World, copy: Copy, pods: Pods): World {
    var leader := EffectiveLeader(c.foreign, copy.status);
    if Election.Load(c.foreign, copy.status, pods) == Err(LeaderNotReady)
    then w.(unfit := w.unfit + {Observation(copy.base, leader, pods[leader].view)})
    else w
  }

  /** The outcome of an election: the history, the copy, and the leader of the reconcile. */
  function AfterElection(w: World, r: Rec, e: Elected): (World, Rec) {
    (w.(versions := e.versions, founder := Founded(w.founder, e.versions)),
     if e.result.Ok? && Continues(LeaderVerdict(e.result, e.copy.status.bootstrapped))
     then Advance(r.(copy := Some(e.copy), leader := e.result.value)) else Over(r.(copy := Some(e.copy))))
  }

  function LeaderGate(c: Setup, w: World, r: Rec, roles: Option<seq<RoleShape>>, pods: Pods, fault: Fault): (World, Rec)
    requires r.copy.Some?
  {
    AfterElection(Observed(c, w, r.copy.value, pods), r,
                  Election.GetLeader(c.foreign, roles, pods, w.versions, r.copy.value, fault))
  }

  function BootstrapGate(w: World, r: Rec, fate: BootstrapFate): (World, Rec)
    requires r.copy.Some?
  {
    var copy := r.copy.value;
    var (s, vshard, v) := Bootstrapping(copy.status, w.remote.vshard, fate);
    var r' := r.(copy := Some(copy.(status := s)));
    var calls := if copy.status.bootstrapped then [] else [BootstrapCall(r.leader, r.listed, w.remote.joined)];
    (w.(remote := w.remote.(vshard := vshard), bootstraps := w.bootstraps + calls),
     if Continues(v) then Advance(r') else Over(r'))
  }

  /** One move of the join loops: start them, look at the next pod, or receive the reply of a call. */
  function JoinGate(c: Setup, w: World, r: Rec, shape: RoleShape, onError: Phase, input: Input): (World, Rec)
    requires r.copy.Some?
  {
    match r.loops
    case None =>
      if input.Lists? && ReflectsCreates(shape, input.lists)
      then (w, r.(loops := Some(Loops(Joining.Walk(shape, input.lists), 0, true, false))))
      else (w, r)
    case Some(l) =>
      if l.cursor >= |l.walk| then
        (w, if l.allJoined then Advance(r.(loops := None)) else Over(r.(loops := None)))
      else if !l.calling then
        if !input.Looked? then (w, r)
        else
          (w, match Joining.Inspect(l.walk[l.cursor], r.leader, w.remote.booted, input.answers)
              case Wait => r.(loops := Some(l.(cursor := l.cursor + 1, allJoined := false)))
              case Skip => r.(loops := Some(l.(cursor := l.cursor + 1)))
              case Fail(_) => Over(r.(loops := None))
              case CallJoin => r.(loops := Some(l.(calling := true))))
      else if !input.Replied? || !l.walk[l.cursor].PodVisit? then (w, r)
      else
        var pod := l.walk[l.cursor].pod;
        var remote := AfterJoin(w.remote, pod, input.join);
        var call := JoinCall(r.leader, pod, r.copy.value.status.bootstrapped, w.remote, remote);
        (w.(remote := remote, joins := w.joins + [call]),
         match JoinError(input.join.reply)
         case None => r.(loops := Some(l.(cursor := l.cursor + 1, calling := false)))
         case Some(UnknownRole(_)) => Over(r.(loops := None, phase := onError))
         case Some(_) => Over(r.(loops := None)))
  }

  function FetchGate(w: World, r: Rec, input: Input): (World, Rec) {
    match r.kind
    case ClusterKind =>
      if input.Read? && input.version < |w.versions|
      then (w, Advance(r.(fetched := true, copy := Some(Copy(input.version, w.versions[input.version])))))
      else (w, Over(r))
    case RoleKind(role) =>
      if input.Read? && role in w.roles && input.version < |w.roles[role]|
      then (w, Advance(r.(fetched := true, own := input.version, phase := w.roles[role][input.version])))
      else (w, Over(r))
    case ConfigKind => (w, if input.Pass? then Advance(r.(fetched := true)) else Over(r))
  }

  function GateStep(c: Setup, w: World, r: Rec, g: S.Gate, input: Input): (World, Rec) {
    match g
    case Fetch => FetchGate(w, r, input)
    case GetCluster =>
      if input.Read? && input.version < |w.versions|
      then (w, Advance(r.(copy := Some(Copy(input.version, w.versions[input.version])))))
      else (w, Over(r))
    case WaitForRoles(expected) =>
      if !input.Views? || !HonestViews(input.views, w.roles) then (w, r)
      else if Continues(WaitForRoles(expected, input.views))
      then (w, Advance(r.(listed := OpeningItems(expected, input.views))))
      else (w, Over(r))
    case GetLeader =>
      if r.copy.None? || !input.Answer? || !HonestPods(input.pods, w.remote.booted) then (w, r)
      else LeaderGate(c, w, r, input.roles, input.pods, input.fault)
    case Bootstrap(_) =>
      if r.copy.None? || !input.Fate? then (w, r) else BootstrapGate(w, r, input.fate)
    case WaitForBootstrapped =>
      (w, if Continues(WaitForBootstrapped(r.copy)) then Advance(r) else Over(r))
    case JoinInstances(onError) =>
      if !r.kind.RoleKind? || r.kind.role !in c.roles || r.copy.None? then (w, r)
      else JoinGate(c, w, r, c.roles[r.kind.role], onError, input)
    case _ => (w, if input.Pass? then Advance(r) else Over(r))
  }

  function TakeStep(c: Setup, w: World, r: Rec, step: S.Step, input: Input): (World, Rec) {
    match step
    case Check(g) => GateStep(c, w, r, g, input)
    case _ => (w, LocalStep(r, step))
  }

  /** One transition of a reconcile that is not over. */
  function RecStep(c: Setup, w: World, r: Rec, input: Input): (World, Rec) {
    if r.pc >= |StepsOf(r.kind)| then (w, Over(r)) else TakeStep(c, w, r, StepsOf(r.kind)[r.pc], input)
  }

  // ---------------------------------------------------------------- the status write at the end

  function RoleWrite(h: seq<Phase>, base: nat, p: Phase, fault: Fault): seq<Phase> {
    if fault == RequestLost || base != |h| - 1 || h[base] == p then h else h + [p]
  }

  function Finished(w: World, r: Rec, fault: Fault): World {
    match r.kind
    case ClusterKind =>
      if r.copy.None? then w
      else
        var (h, _, _) := Write(w.versions, r.copy.value, fault);
        w.(versions := h, founder := Founded(w.founder, h))
    case RoleKind(role) =>
      if !r.fetched || role !in w.roles then w
      else w.(roles := w.roles[role := RoleWrite(w.roles[role], r.own, r.phase, fault)])
    case ConfigKind => w
  }

  // ---------------------------------------------------------------- runs

  /** A move that the rules do not allow changes nothing. */
  function Apply(c: Setup, w: World, m: Move): World {
    match m
    case TouchCluster => w.(versions := w.versions + [Last(w.versions)])
    case TouchRole(role) =>
      if role !in w.roles || |w.roles[role]| == 0 then w
      else w.(roles := w.roles[role := w.roles[role] + [w.roles[role][|w.roles[role]| - 1]]])
    case Boots(pod) =>
      if pod !in w.remote.joined then w
      else w.(remote := w.remote.(booted := w.remote.booted + {pod}))
    case Begin(id, kind) =>
      if id in w.recs || (kind.RoleKind? && kind.role !in c.roles) then w
      else w.(recs := w.recs[id := Fresh(kind)])
    case Crash(id) => w.(recs := w.recs - {id})
    case Go(id, input) =>
      if id !in w.recs || w.recs[id].done then w
      else
        var (w', r') := RecStep(c, w, w.recs[id], input);
        w'.(recs := w.recs[id := r'])
    case Finish(id, fault) =>
      if id !in w.recs || !w.recs[id].done then w
      else
        var w' := Finished(w, w.recs[id], fault);
        w'.(recs := w.recs - {id})
  }

  function Run(c: Setup, w: World, moves: seq<Move>): World {
    if |moves| == 0 then w else Apply(c, Run(c, w, moves[..|moves| - 1]), moves[|moves| - 1])
  }

  /**
  How a run starts: one cluster version without a leader and not bootstrapped, roles that
  have not been reconciled, and no instance joined, unless there is a foreign leader that
  already runs the topology. The remote side may be bootstrapped already.
  */
  ghost predicate Initial(c: Setup, w: World) {
    && WellFormed(c)
    && |w.versions| == 1 && !w.versions[0].bootstrapped && w.versions[0].leader == ""
    && w.versions[0].phase in {Unset, Pending}
    && w.roles.Keys == c.roles.Keys
    && (forall role | role in w.roles :: |w.roles[role]| == 1 && w.roles[role][0] in {Unset, Pending})
    && w.remote.booted <= w.remote.joined
    && (w.remote.joined == {} || (c.foreign != "" && c.foreign in w.remote.booted))
    && w.recs == map[] && w.founder == c.foreign
    && w.unfit == {} && w.joins == [] && w.bootstraps == []
  }

  ghost predicate ReachableFrom(c: Setup, start: World, w: World) {
    Initial(c, start) && exists moves :: w == Run(c, start, moves)
  }

  /** Some run leads here. */
  ghost predicate Reachable(c: Setup, w: World) {
    exists start :: ReachableFrom(c, start, w)
  }
}
