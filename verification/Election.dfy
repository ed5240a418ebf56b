/**
Leader election. The class methods follow the operator's loops and branches; each is
proved against a function on values, which the protocol model reuses.
*/
module Election {
  import opened Basics
  import opened ClusterStatus
  import Names

  datatype Probe = Yes | No | ProbeFails

  /** A pod as the election sees it: its own state and the two cartridge probes. */
  datatype PodView = PodView(deleting: bool, running: bool, started: Probe, configured: Probe)

  datatype Lookup = Missing | LookupFails | Found(view: PodView)

  /** What looking up and probing each pod gives during one call; pods not listed do not exist. */
  type Pods = map<string, Lookup>

  datatype ElectionError =
    | NoAvailableLeader | ElectionConflict | LeaderNotReady | LeaderNotElected
    | PodNotFound | Failed

  /** The parts of a role the search reads. */
  datatype RoleShape = RoleShape(name: string, replicasets: int32, replicas: int32)

  function Look(pods: Pods, name: string): Lookup {
    if name in pods then pods[name] else Missing
  }

  function CanBeLeader(view: PodView, bootstrapped: bool): Result<bool, ElectionError> {
    if view.deleting || !view.running then Ok(false)
    else
      match if bootstrapped then view.configured else view.started
      case Yes => Ok(true)
      case No => Ok(false)
      case ProbeFails => Err(Failed)
  }

  // ---------------------------------------------------------------- the ordered search

  /** One candidate: pod ordinal, replicaset ordinal, position of the role in the list. */
  datatype Triple = Triple(pod: int, replicaset: int, role: int)

  predicate Before(t: Triple, u: Triple) {
    t.pod < u.pod || (t.pod == u.pod &&
    (t.replicaset < u.replicaset || (t.replicaset == u.replicaset && t.role < u.role)))
  }

  predicate InRange(roles: seq<RoleShape>, t: Triple) {
    && 0 <= t.role < |roles|
    && 0 <= t.replicaset < roles[t.role].replicasets
    && 0 <= t.pod < roles[t.role].replicas
  }

  function NameOf(roles: seq<RoleShape>, t: Triple): string
    requires 0 <= t.role < |roles|
  {
    Names.PodName(roles[t.role].name, t.replicaset, t.pod)
  }

  /** One search: the leader to avoid, whether vshard was bootstrapped, and the answers about pods. */
  datatype Query = Query(former: string, bootstrapped: bool, pods: Pods)

  /** What the search makes of one pod name: pass over it, or return with a pod or an error. */
  function Judge(name: string, q: Query): Option<Result<string, ElectionError>> {
    if name == q.former then None
    else
      match Look(q.pods, name)
      case Missing => None
      case LookupFails => Some(Err(Failed))
      case Found(view) =>
        match CanBeLeader(view, q.bootstrapped)
        case Ok(fit) => if fit then Some(Ok(name)) else None
        case Err(e) => Some(Err(e))
  }

  function MaxReplicasets(roles: seq<RoleShape>): (m: int32)
    ensures m >= 0 && forall r | r in roles :: r.replicasets <= m
  {
    if |roles| == 0 then 0
    else
      var m := MaxReplicasets(roles[..|roles| - 1]);
      if m < roles[|roles| - 1].replicasets then roles[|roles| - 1].replicasets else m
  }

  function MaxReplicas(roles: seq<RoleShape>): (m: int32)
    ensures m >= 0 && forall r | r in roles :: r.replicas <= m
  {
    if |roles| == 0 then 0
    else
      var m := MaxReplicas(roles[..|roles| - 1]);
      if m < roles[|roles| - 1].replicas then roles[|roles| - 1].replicas else m
  }

  /** The candidates the three loops reach, in order, from the given loop counters on. */
  function VisitsFrom(roles: seq<RoleShape>, maxR: int, maxP: int, p: nat, r: nat, i: nat): seq<Triple>
    requires i <= |roles|
    decreases maxP - p, maxR - r, |roles| - i
  {
    if p >= maxP then []
    else if r >= maxR then VisitsFrom(roles, maxR, maxP, p + 1, 0, 0)
    else if i == |roles| then VisitsFrom(roles, maxR, maxP, p, r + 1, 0)
    else
      var rest := VisitsFrom(roles, maxR, maxP, p, r, i + 1);
      if InRange(roles, Triple(p, r, i)) then [Triple(p, r, i)] + rest else rest
  }

  function Visits(roles: seq<RoleShape>): seq<Triple> {
    VisitsFrom(roles, MaxReplicasets(roles), MaxReplicas(roles), 0, 0, 0)
  }

  /** What the search makes of each candidate. */
  function JudgeOf(roles: seq<RoleShape>, q: Query): Triple -> Option<Result<string, ElectionError>> {
    (t: Triple) => if 0 <= t.role < |roles| then Judge(NameOf(roles, t), q) else None
  }

  /** The result of the first candidate that makes the search return. */
  function Pick(ts: seq<Triple>, judge: Triple -> Option<Result<string, ElectionError>>): Result<string, ElectionError>
  {
    if |ts| == 0 then Err(NoAvailableLeader)
    else
      match judge(ts[0])
      case Some(r) => r
      case None => Pick(ts[1..], judge)
  }

  /** Strictly ascending, hence without repetition. */
  ghost predicate Ascending(ts: seq<Triple>) {
    forall j, k | 0 <= j < k < |ts| :: Before(ts[j], ts[k])
  }

  /** Loop positions are compared as the triples they stand at. */
  predicate AtOrAfter(t: Triple, p: int, r: int, i: int) {
    t == Triple(p, r, i) || Before(Triple(p, r, i), t)
  }

  lemma {:induction false} VisitsFromExact(roles: seq<RoleShape>, maxR: int, maxP: int, p: nat, r: nat, i: nat)
    requires i <= |roles|
    requires forall role | role in roles :: role.replicasets <= maxR && role.replicas <= maxP
    ensures forall t :: t in VisitsFrom(roles, maxR, maxP, p, r, i) <==> InRange(roles, t) && AtOrAfter(t, p, r, i)
    decreases maxP - p, maxR - r, |roles| - i
  {
    if p >= maxP {
    } else if r >= maxR {
      VisitsFromExact(roles, maxR, maxP, p + 1, 0, 0);
    } else if i == |roles| {
      VisitsFromExact(roles, maxR, maxP, p, r + 1, 0);
    } else {
      VisitsFromExact(roles, maxR, maxP, p, r, i + 1);
    }
  }

  lemma {:induction false} VisitsFromAscends(roles: seq<RoleShape>, maxR: int, maxP: int, p: nat, r: nat, i: nat)
    requires i <= |roles|
    requires forall role | role in roles :: role.replicasets <= maxR && role.replicas <= maxP
    ensures Ascending(VisitsFrom(roles, maxR, maxP, p, r, i))
    decreases maxP - p, maxR - r, |roles| - i
  {
    if p >= maxP {
    } else if r >= maxR {
      VisitsFromAscends(roles, maxR, maxP, p + 1, 0, 0);
    } else if i == |roles| {
      VisitsFromAscends(roles, maxR, maxP, p, r + 1, 0);
    } else {
      VisitsFromAscends(roles, maxR, maxP, p, r, i + 1);
      VisitsFromExact(roles, maxR, maxP, p, r, i + 1);
      var rest := VisitsFrom(roles, maxR, maxP, p, r, i + 1);
      forall k | 0 <= k < |rest|
        ensures Before(Triple(p, r, i), rest[k])
      {
        assert rest[k] in rest;
      }
    }
  }

  /**
  The loops run to the maxima over all roles, yet visit exactly the candidates of each
  role's own range, each once, ordered by pod, then replicaset, then role.
  */
  lemma VisitsExact(roles: seq<RoleShape>)
    ensures forall t :: t in Visits(roles) <==> InRange(roles, t)
    ensures Ascending(Visits(roles))
  {
    VisitsFromExact(roles, MaxReplicasets(roles), MaxReplicas(roles), 0, 0, 0);
    VisitsFromAscends(roles, MaxReplicasets(roles), MaxReplicas(roles), 0, 0, 0);
  }

  /** `findNewLeaderInstance`; `None` for the role list is a failed list call. */
  function FindNewLeader(roles: Option<seq<RoleShape>>, q: Query): Result<string, ElectionError> {
    match roles
    case None => Err(Failed)
    case Some(rs) => Pick(Visits(rs), JudgeOf(rs, q))
  }

  ghost predicate Eligible(name: string, q: Query) {
    name != q.former && Look(q.pods, name).Found? && CanBeLeader(q.pods[name].view, q.bootstrapped) == Ok(true)
  }

  /** No lookup and no probe of a candidate other than the former leader fails, except that a pod may be missing. */
  ghost predicate NothingFails(roles: seq<RoleShape>, q: Query) {
    forall t | InRange(roles, t) && NameOf(roles, t) != q.former ::
      var found := Look(q.pods, NameOf(roles, t));
      !found.LookupFails? && (found.Found? ==> CanBeLeader(found.view, q.bootstrapped).Ok?)
  }

  ghost predicate IsLeast(roles: seq<RoleShape>, t: Triple, q: Query) {
    && InRange(roles, t)
    && Eligible(NameOf(roles, t), q)
    && forall u | InRange(roles, u) && Before(u, t) :: !Eligible(NameOf(roles, u), q)
  }

  /** `t` is the first candidate at which the search returns. */
  ghost predicate StopsAt(roles: seq<RoleShape>, t: Triple, q: Query) {
    && InRange(roles, t)
    && Judge(NameOf(roles, t), q).Some?
    && forall u | InRange(roles, u) && Before(u, t) :: Judge(NameOf(roles, u), q).None?
  }

  lemma {:induction false} PickFirst(ts: seq<Triple>, judge: Triple -> Option<Result<string, ElectionError>>)
    returns (k: nat)
    ensures k <= |ts|
    ensures forall j | 0 <= j < k :: judge(ts[j]).None?
    ensures if k < |ts| then judge(ts[k]) == Some(Pick(ts, judge)) else Pick(ts, judge) == Err(NoAvailableLeader)
  {
    if |ts| == 0 || judge(ts[0]).Some? {
      k := 0;
    } else {
      var rest := ts[1..];
      var i := PickFirst(rest, judge);
      k := i + 1;
      forall j | 0 <= j < k
        ensures judge(ts[j]).None?
      {
        if j > 0 { assert ts[j] == rest[j - 1]; }
      }
    }
  }

  /** The first candidate on which this judgement decides. */
  ghost predicate DecidesFirst(roles: seq<RoleShape>, t: Triple, judge: Triple -> Option<Result<string, ElectionError>>)
  {
    InRange(roles, t) && judge(t).Some? && forall u | InRange(roles, u) && Before(u, t) :: judge(u).None?
  }

  /** Whatever the judgement, the outcome is that of the first candidate it decides on. */
  lemma PickDecidesFirst(roles: seq<RoleShape>, judge: Triple -> Option<Result<string, ElectionError>>)
    ensures var r := Pick(Visits(roles), judge);
      || (exists t :: DecidesFirst(roles, t, judge) && judge(t) == Some(r))
      || (r == Err(NoAvailableLeader) && forall t | InRange(roles, t) :: judge(t).None?)
  {
    VisitsExact(roles);
    var ts := Visits(roles);
    var k := PickFirst(ts, judge);
    if k < |ts| {
      assert ts[k] in ts;
      forall u | InRange(roles, u) && Before(u, ts[k])
        ensures judge(u).None?
      {
        var j :| 0 <= j < |ts| && ts[j] == u;
        assert j < k;
      }
      assert DecidesFirst(roles, ts[k], judge);
    } else {
      forall t | InRange(roles, t)
        ensures judge(t).None?
      {
        var j :| 0 <= j < |ts| && ts[j] == t;
      }
    }
  }

  lemma OneDecidesFirst(roles: seq<RoleShape>, judge: Triple -> Option<Result<string, ElectionError>>, t: Triple,
                        u: Triple)
    requires DecidesFirst(roles, t, judge) && DecidesFirst(roles, u, judge)
    ensures t == u
  {
    assert t == u || Before(t, u) || Before(u, t);
  }

  lemma StopsAtIs(roles: seq<RoleShape>, t: Triple, q: Query)
    ensures StopsAt(roles, t, q) <==> DecidesFirst(roles, t, JudgeOf(roles, q))
  {}

  /**
  On every input, failures included: the search returns what its first decisive candidate
  decides, and ErrNoAvailableLeader exactly when no candidate is decisive.
  */
  lemma SearchStopsAtFirst(roles: seq<RoleShape>, q: Query)
    ensures var r := FindNewLeader(Some(roles), q);
      if exists t :: StopsAt(roles, t, q) then
        forall t | StopsAt(roles, t, q) :: Judge(NameOf(roles, t), q) == Some(r)
      else
        && r == Err(NoAvailableLeader)
        && forall t | InRange(roles, t) :: Judge(NameOf(roles, t), q).None?
  {
    var judge := JudgeOf(roles, q);
    PickDecidesFirst(roles, judge);
    forall t
      ensures StopsAt(roles, t, q) <==> DecidesFirst(roles, t, judge)
    {
      StopsAtIs(roles, t, q);
    }
    forall t, u | StopsAt(roles, t, q) && StopsAt(roles, u, q)
      ensures t == u
    {
      OneDecidesFirst(roles, judge, t, u);
    }
  }

  /**
  When nothing fails the search is correct and complete: it returns the least eligible
  candidate, and ErrNoAvailableLeader exactly when there is none.
  */
  lemma SearchCorrect(roles: seq<RoleShape>, q: Query)
    requires NothingFails(roles, q)
    ensures var r := FindNewLeader(Some(roles), q);
      && (r.Ok? ==> r.value != q.former && exists t :: IsLeast(roles, t, q) && r.value == NameOf(roles, t))
      && (r.Err? ==> r.error == NoAvailableLeader)
      && (r.Err? <==> forall t | InRange(roles, t) :: !Eligible(NameOf(roles, t), q))
  {
    SearchStopsAtFirst(roles, q);
    forall t | InRange(roles, t)
      ensures Judge(NameOf(roles, t), q) ==
              if Eligible(NameOf(roles, t), q) then Some(Ok(NameOf(roles, t))) else None
    {}
    forall t | StopsAt(roles, t, q)
      ensures IsLeast(roles, t, q)
    {}
  }

  // ---------------------------------------------------------------- in terms of the pods

  /** The pod is running, is not being deleted, and cartridge is configured in it or, before bootstrap, started. */
  predicate ReadyToLead(view: PodView, bootstrapped: bool) {
    && view.running && !view.deleting
    && (bootstrapped ==> view.configured == Yes) && (!bootstrapped ==> view.started == Yes)
  }

  /** The pod is not running or is being deleted, or cartridge answers that it is not that far. */
  predicate NotReadyToLead(view: PodView, bootstrapped: bool) {
    || !view.running || view.deleting
    || (bootstrapped && view.configured == No) || (!bootstrapped && view.started == No)
  }

  predicate IsReady(name: string, q: Query) {
    name in q.pods && q.pods[name].Found? && ReadyToLead(q.pods[name].view, q.bootstrapped)
  }

  /** The former leader, a pod that does not exist, or one that is not ready to lead. */
  predicate PassedOver(name: string, q: Query) {
    || name == q.former || name !in q.pods || q.pods[name].Missing?
    || (q.pods[name].Found? && NotReadyToLead(q.pods[name].view, q.bootstrapped))
  }

  lemma JudgeByPod(name: string, q: Query)
    ensures Judge(name, q).None? <==> PassedOver(name, q)
    ensures Judge(name, q) == Some(Ok(name)) <==> name != q.former && IsReady(name, q)
    ensures Judge(name, q).Some? && Judge(name, q).value.Ok? ==> Judge(name, q).value == Ok(name)
    ensures Judge(name, q).Some? && Judge(name, q).value.Err? ==> Judge(name, q).value == Err(Failed)
  {}

  /** The first candidate that is not passed over is this one. */
  ghost predicate FirstLeft(roles: seq<RoleShape>, t: Triple, q: Query) {
    && InRange(roles, t) && !PassedOver(NameOf(roles, t), q)
    && forall u | InRange(roles, u) && Before(u, t) :: PassedOver(NameOf(roles, u), q)
  }

  /** A pod that is ready is elected; one that could not be looked up or probed fails the search. */
  predicate Decided(name: string, q: Query, r: Result<string, ElectionError>) {
    if IsReady(name, q) then r == Ok(name) else r == Err(Failed)
  }

  ghost predicate AllPassedOver(roles: seq<RoleShape>, q: Query) {
    forall t | InRange(roles, t) :: PassedOver(NameOf(roles, t), q)
  }

  /**
  The search by what the pods are: it goes past the former leader, missing pods and pods not
  ready to lead, and ends at the first one that is left. That one is elected if it is ready
  to lead; otherwise it could not be looked up or probed, and the search fails.
  */
  lemma SearchByPods(roles: seq<RoleShape>, q: Query)
    ensures var r := FindNewLeader(Some(roles), q);
      && (r == Err(NoAvailableLeader) <==> AllPassedOver(roles, q))
      && (r != Err(NoAvailableLeader) ==> exists t :: FirstLeft(roles, t, q) && Decided(NameOf(roles, t), q, r))
  {
    var judge := JudgeOf(roles, q);
    PickDecidesFirst(roles, judge);
    forall t | InRange(roles, t)
      ensures judge(t).None? <==> PassedOver(NameOf(roles, t), q)
    {
      JudgeByPod(NameOf(roles, t), q);
    }
    if t :| DecidesFirst(roles, t, judge) && judge(t) == Some(FindNewLeader(Some(roles), q)) {
      JudgeByPod(NameOf(roles, t), q);
      assert FirstLeft(roles, t, q);
    }
  }

  /** Whoever is elected exists, is running, is not being deleted, and cartridge is far enough in it. */
  lemma ElectedIsReady(roles: Option<seq<RoleShape>>, q: Query)
    requires FindNewLeader(roles, q).Ok?
    ensures FindNewLeader(roles, q).value != q.former && IsReady(FindNewLeader(roles, q).value, q)
  {
    SearchByPods(roles.value, q);
  }

  /** Leaving out the old leader by name leaves out at most one candidate. */
  lemma ExcludesAtMostOne(roles: seq<RoleShape>, t: Triple, u: Triple)
    requires InRange(roles, t) && InRange(roles, u)
    requires forall i, j | 0 <= i < j < |roles| :: roles[i].name != roles[j].name
    requires NameOf(roles, t) == NameOf(roles, u)
    ensures t == u
  {
    Names.PodNameInjective(roles[t.role].name, t.replicaset, t.pod, roles[u.role].name, u.replicaset, u.pod);
  }

  /** From these loop counters on, the search still has the whole answer to find. */
  ghost predicate Remaining(rs: seq<RoleShape>, maxR: int, maxP: int, p: nat, r: nat, i: nat, q: Query,
                            answer: Result<string, ElectionError>)
  {
    && i <= |rs|
    && Pick(VisitsFrom(rs, maxR, maxP, p, r, i), JudgeOf(rs, q)) == answer
  }

  /** One turn of the innermost loop: it either settles the answer or leaves it to the rest. */
  lemma OneTurn(rs: seq<RoleShape>, maxR: int, maxP: int, p: nat, r: nat, i: nat, q: Query, answer: Result<string,
                ElectionError>)
    requires i < |rs| && r < maxR && p < maxP && Remaining(rs, maxR, maxP, p, r, i, q, answer)
    ensures var judged := if InRange(rs, Triple(p, r, i)) then Judge(NameOf(rs, Triple(p, r, i)), q) else None;
      if judged.Some? then judged.value == answer else Remaining(rs, maxR, maxP, p, r, i + 1, q, answer)
  {
    var ts, rest := VisitsFrom(rs, maxR, maxP, p, r, i), VisitsFrom(rs, maxR, maxP, p, r, i + 1);
    if InRange(rs, Triple(p, r, i)) {
      assert ts[1..] == rest;
    }
  }

  // ---------------------------------------------------------------- the decision

  /** `loadLeaderInstance`. */
  function Load(foreign: string, s: Status, pods: Pods): Result<string, ElectionError> {
    var leader := EffectiveLeader(foreign, s);
    if leader == "" then Err(LeaderNotElected)
    else
      match Look(pods, leader)
      case Missing => Err(PodNotFound)
      case LookupFails => Err(Failed)
      case Found(view) =>
        match CanBeLeader(view, s.bootstrapped)
        case Err(e) => Err(e)
        case Ok(fit) => if fit then Ok(leader) else Err(LeaderNotReady)
  }

  /**
  The present leader by what its pod is: it is used exactly if it exists and is ready to
  lead, counts as not ready exactly if it exists and is not, and every other outcome is an
  error of its own.
  */
  lemma LoadByPod(foreign: string, s: Status, pods: Pods)
    ensures var l := EffectiveLeader(foreign, s);
      var r := Load(foreign, s, pods);
      && (r.Ok? <==> l != "" && IsReady(l, Query("", s.bootstrapped, pods)))
      && (r.Ok? ==> r.value == l)
      && (r == Err(LeaderNotReady) <==>
            l != "" && l in pods && pods[l].Found? && NotReadyToLead(pods[l].view, s.bootstrapped))
      && (r == Err(LeaderNotElected) <==> l == "")
      && (r == Err(PodNotFound) <==> l != "" && (l !in pods || pods[l].Missing?))
      && (r.Err? ==> r.error in {LeaderNotReady, LeaderNotElected, PodNotFound, Failed})
  {}

  /** The two situations in which a new leader is looked for. */
  predicate MustElect(foreign: string, s: Status, pods: Pods) {
    var loaded := Load(foreign, s, pods);
    loaded == Err(LeaderNotElected) || (loaded == Err(LeaderNotReady) && s.bootstrapped)
  }

  /** What the search is asked by this copy. */
  function QueryOf(foreign: string, s: Status, pods: Pods): Query {
    Query(EffectiveLeader(foreign, s), s.bootstrapped, pods)
  }

  datatype Elected = Elected(versions: History, copy: Copy, result: Result<string, ElectionError>)

  /** `ElectLeaderInstance`. */
  function Elect(foreign: string, roles: Option<seq<RoleShape>>, pods: Pods, h: History, c: Copy, fault: Fault): Elected
  {
    match FindNewLeader(roles, QueryOf(foreign, c.status, pods))
    case Err(e) => Elected(h, c, Err(e))
    case Ok(name) =>
      var (h', c', w) := Write(h, c.(status := c.status.(leader := name)), fault);
      var result := match w
        case Written => Ok(name)
        case Conflict => Err(ElectionConflict)
        case WriteFailed => Err(Failed);
      Elected(h', c', result)
  }

  /** `GetLeaderInstance`. */
  function GetLeader(foreign: string, roles: Option<seq<RoleShape>>, pods: Pods, h: History, c: Copy,
                     fault: Fault): Elected
  {
    if MustElect(foreign, c.status, pods) then Elect(foreign, roles, pods, h, c, fault)
    else Elected(h, c, Load(foreign, c.status, pods))
  }

  /** A leader found fit is kept: nothing is written and the same pod is returned. */
  lemma FitLeaderIsKept(foreign: string, roles: Option<seq<RoleShape>>, pods: Pods, h: History, c: Copy, fault: Fault)
    requires var l := EffectiveLeader(foreign, c.status);
      l != "" && Look(pods, l).Found? && CanBeLeader(pods[l].view, c.status.bootstrapped) == Ok(true)
    ensures GetLeader(foreign, roles, pods, h, c, fault) == Elected(h, c, Ok(EffectiveLeader(foreign, c.status)))
  {}

  /** The leader pod was looked up and probed, and the probes said that it cannot lead. */
  predicate FoundUnfit(name: string, bootstrapped: bool, pods: Pods) {
    Look(pods, name).Found? && CanBeLeader(pods[name].view, bootstrapped) == Ok(false)
  }

  /**
  An elected leader is replaced in the copy exactly when the cluster is bootstrapped, the
  leader pod exists and is found unfit, and the search finds one that the status does not
  name already: never before bootstrap, whatever the pods report.
  */
  lemma ReplacedExactlyWhenUnfit(foreign: string, roles: Option<seq<RoleShape>>, pods: Pods, h: History, c: Copy,
                                 fault: Fault)
    requires EffectiveLeader(foreign, c.status) != ""
    ensures var found := FindNewLeader(roles, QueryOf(foreign, c.status, pods));
      GetLeader(foreign, roles, pods, h, c, fault).copy.status != c.status <==>
        && c.status.bootstrapped && FoundUnfit(EffectiveLeader(foreign, c.status), true, pods)
        && found.Ok? && found.value != c.status.leader
  {
    var found := FindNewLeader(roles, QueryOf(foreign, c.status, pods));
    if MustElect(foreign, c.status, pods) && found.Ok? {
      assert c.status.(leader := found.value) != c.status <==> found.value != c.status.leader;
    }
  }

  ghost predicate SomeEligible(roles: seq<RoleShape>, q: Query) {
    exists t :: InRange(roles, t) && Eligible(NameOf(roles, t), q)
  }

  /** The name of the least eligible candidate. */
  ghost predicate LeastEligible(roles: seq<RoleShape>, q: Query, name: string) {
    name != q.former && exists t :: IsLeast(roles, t, q) && name == NameOf(roles, t)
  }

  lemma SearchFindsLeast(roles: seq<RoleShape>, q: Query)
    requires NothingFails(roles, q) && SomeEligible(roles, q)
    ensures var r := FindNewLeader(Some(roles), q); r.Ok? && LeastEligible(roles, q, r.value)
  {
    SearchCorrect(roles, q);
  }

  /** The elected leader is that of the current version, which the copy is now based on. */
  ghost predicate Persisted(h: History, e: Elected) {
    && e.result.Ok? && h <= e.versions
    && Last(e.versions).leader == e.result.value && e.copy == Copy(|e.versions| - 1, Last(e.versions))
  }

  /** With a candidate to be found, the decision alone tells whether it is elected. */
  lemma DecisionAfterSearch(foreign: string, roles: Option<seq<RoleShape>>, pods: Pods, h: History, c: Copy)
    requires c.status.bootstrapped && c.base == |h| - 1 && EffectiveLeader(foreign, c.status) != ""
    requires Load(foreign, c.status, pods).Err? && FindNewLeader(roles, QueryOf(foreign, c.status, pods)).Ok?
    ensures var l := EffectiveLeader(foreign, c.status);
      var e := GetLeader(foreign, roles, pods, h, c, NoFault);
      && (e.result.Ok? <==> Look(pods, l).Found? && CanBeLeader(pods[l].view, true).Ok?)
      && (e.result.Ok? ==> e.result == FindNewLeader(roles, QueryOf(foreign, c.status, pods)) && Persisted(h, e))
      && (e.result.Err? ==> e.versions == h && e.copy == c)
  {
    var q := QueryOf(foreign, c.status, pods);
    var e := GetLeader(foreign, roles, pods, h, c, NoFault);
    if e.result.Ok? {
      var s := c.status.(leader := FindNewLeader(roles, q).value);
      assert e == Elect(foreign, roles, pods, h, c, NoFault);
      assert e.versions == Appended(h, s) && Last(e.versions) == s;
    }
  }

  /**
  The promise of a new election when the leader of a bootstrapped cluster is not available
  is kept exactly when its pod still exists and can be probed. Then the least eligible pod
  is elected and persisted; a leader that cannot be looked up or probed, a deleted pod
  among them, leaves the cluster without one although a candidate is there.
  */
  lemma UnavailableLeaderIsReplacedIff(foreign: string, roles: seq<RoleShape>, pods: Pods, h: History, c: Copy)
    requires c.status.bootstrapped && c.base == |h| - 1 && EffectiveLeader(foreign, c.status) != ""
    requires Load(foreign, c.status, pods).Err?
    requires var q := QueryOf(foreign, c.status, pods); NothingFails(roles, q) && SomeEligible(roles, q)
    ensures var l := EffectiveLeader(foreign, c.status);
      var e := GetLeader(foreign, Some(roles), pods, h, c, NoFault);
      && (e.result.Ok? <==> Look(pods, l).Found? && CanBeLeader(pods[l].view, true).Ok?)
      && (e.result.Ok? ==> LeastEligible(roles, QueryOf(foreign, c.status, pods), e.result.value) && Persisted(h, e))
      && (e.result.Err? ==> e.versions == h && e.copy == c)
  {
    SearchFindsLeast(roles, QueryOf(foreign, c.status, pods));
    DecisionAfterSearch(foreign, Some(roles), pods, h, c);
  }

  lemma FirstElection(foreign: string, roles: Option<seq<RoleShape>>, pods: Pods, h: History, c: Copy)
    requires c.base == |h| - 1 && EffectiveLeader(foreign, c.status) == ""
    requires FindNewLeader(roles, QueryOf(foreign, c.status, pods)).Ok?
    ensures var e := GetLeader(foreign, roles, pods, h, c, NoFault);
      e.result == FindNewLeader(roles, QueryOf(foreign, c.status, pods)) && Persisted(h, e)
  {
    var s := c.status.(leader := FindNewLeader(roles, QueryOf(foreign, c.status, pods)).value);
    assert GetLeader(foreign, roles, pods, h, c, NoFault).versions == Appended(h, s) && Last(Appended(h, s)) == s;
  }

  /**
  A cluster without a leader gets one, before and after bootstrap: the least eligible pod is
  elected and persisted.
  */
  lemma FirstLeaderIsElected(foreign: string, roles: seq<RoleShape>, pods: Pods, h: History, c: Copy)
    requires c.base == |h| - 1 && EffectiveLeader(foreign, c.status) == ""
    requires var q := QueryOf(foreign, c.status, pods); NothingFails(roles, q) && SomeEligible(roles, q)
    ensures var e := GetLeader(foreign, Some(roles), pods, h, c, NoFault);
      e.result.Ok? && LeastEligible(roles, QueryOf(foreign, c.status, pods), e.result.value) && Persisted(h, e)
  {
    SearchFindsLeast(roles, QueryOf(foreign, c.status, pods));
    FirstElection(foreign, Some(roles), pods, h, c);
  }

  /** One role with two running instances that are configured, of which the leader's pod is gone. */
  lemma DeletedLeaderBlocksElection()
    ensures var roles := [RoleShape("storage", 1, 2)];
      var pods: Pods := map[Names.PodName("storage", 0, 1) := Found(PodView(false, true, Yes, Yes))];
      var status := Status(Ready, true, Names.PodName("storage", 0, 0));
      && Eligible(NameOf(roles, Triple(1, 0, 0)), QueryOf("", status, pods))
      && GetLeader("", Some(roles), pods, [status], Copy(0, status), NoFault).result == Err(PodNotFound)
  {
    if Names.PodName("storage", 0, 0) == Names.PodName("storage", 0, 1) {
      Names.PodNameInjective("storage", 0, 0, "storage", 0, 1);
    }
  }

  /** A leader pod that is not found is an error, not a reason to elect, even after bootstrap. */
  lemma MissingLeaderIsNotReplaced(foreign: string, roles: Option<seq<RoleShape>>, pods: Pods, h: History, c: Copy,
                                   fault: Fault)
    requires EffectiveLeader(foreign, c.status) != "" && Look(pods, EffectiveLeader(foreign, c.status)).Missing?
    ensures GetLeader(foreign, roles, pods, h, c, fault) == Elected(h, c, Err(PodNotFound))
  {}

  /** A new leader is looked for without one, and after bootstrap for one whose pod is there but not ready to lead. */
  predicate NeedsElection(foreign: string, s: Status, pods: Pods) {
    var l := EffectiveLeader(foreign, s);
    || l == ""
    || (s.bootstrapped && l in pods && pods[l].Found? && NotReadyToLead(pods[l].view, true))
  }

  lemma NeedsElectionIff(foreign: string, s: Status, pods: Pods)
    ensures MustElect(foreign, s, pods) <==> NeedsElection(foreign, s, pods)
  {
    LoadByPod(foreign, s, pods);
  }

  lemma SearchErrors(roles: Option<seq<RoleShape>>, q: Query)
    ensures var r := FindNewLeader(roles, q);
      && (r == Err(NoAvailableLeader) <==> roles.Some? && AllPassedOver(roles.value, q))
      && (r.Err? ==> r.error in {NoAvailableLeader, Failed})
  {
    if roles.Some? { SearchByPods(roles.value, q); }
  }

  lemma OutcomeOfElection(foreign: string, roles: Option<seq<RoleShape>>, pods: Pods, h: History, c: Copy, fault: Fault)
    requires var r := FindNewLeader(roles, QueryOf(foreign, c.status, pods));
      r.Err? ==> r.error in {NoAvailableLeader, Failed}
    ensures var found := FindNewLeader(roles, QueryOf(foreign, c.status, pods));
      var r := GetLeader(foreign, roles, pods, h, c, fault).result;
      var elects := MustElect(foreign, c.status, pods);
      && (r == Err(ElectionConflict) <==> elects && found.Ok? && c.base != |h| - 1 && fault == NoFault)
      && (r == Err(NoAvailableLeader) <==> elects && found == Err(NoAvailableLeader))
  {
    LoadByPod(foreign, c.status, pods);
  }

  /**
  What can come of it, by situation: a race is lost exactly when a candidate was found and
  the copy is not based on the current version, and there is no available leader exactly
  when the search passed over every candidate.
  */
  lemma ElectionBySituation(foreign: string, roles: Option<seq<RoleShape>>, pods: Pods, h: History, c: Copy,
                            fault: Fault)
    ensures var q := QueryOf(foreign, c.status, pods);
      var r := GetLeader(foreign, roles, pods, h, c, fault).result;
      && (r == Err(ElectionConflict) <==>
            && NeedsElection(foreign, c.status, pods) && FindNewLeader(roles, q).Ok?
            && c.base != |h| - 1 && fault == NoFault)
      && (r == Err(NoAvailableLeader) <==>
            NeedsElection(foreign, c.status, pods) && roles.Some? && AllPassedOver(roles.value, q))
  {
    NeedsElectionIff(foreign, c.status, pods);
    SearchErrors(roles, QueryOf(foreign, c.status, pods));
    OutcomeOfElection(foreign, roles, pods, h, c, fault);
  }

  // ---------------------------------------------------------------- the operator's code

  class LeaderElection {
    const store: StatusStore
    /** The answers of the API server and of cartridge during the call. */
    const roles: Option<seq<RoleShape>>
    const pods: Pods
    const fault: Fault

    constructor (store: StatusStore, roles: Option<seq<RoleShape>>, pods: Pods, fault: Fault)
      ensures this.store == store && this.roles == roles && this.pods == pods && this.fault == fault
    {
      this.store, this.roles, this.pods, this.fault := store, roles, pods, fault;
    }

    method GetLeaderInstance(cluster: Cluster) returns (r: Result<string, ElectionError>)
      modifies store, cluster
      ensures Elected(store.versions, cluster.Value(), r) ==
              GetLeader(cluster.foreignLeader, roles, pods, old(store.versions), old(cluster.Value()), fault)
    {
      var loaded := LoadLeaderInstance(cluster);
      if loaded.Err? {
        if loaded.error == LeaderNotElected {
          r := ElectLeaderInstance(cluster);
          return;
        }
        if loaded.error == LeaderNotReady && cluster.bootstrapped {
          r := ElectLeaderInstance(cluster);
          return;
        }
      }
      return loaded;
    }

    method ElectLeaderInstance(cluster: Cluster) returns (r: Result<string, ElectionError>)
      modifies store, cluster
      ensures Elected(store.versions, cluster.Value(), r) ==
              Elect(cluster.foreignLeader, roles, pods, old(store.versions), old(cluster.Value()), fault)
    {
      var found := FindNewLeaderInstance(cluster);
      if found.Err? { return found; }
      cluster.SetLeader(found.value);
      var w := store.Update(cluster, fault);
      if w.Conflict? { return Err(ElectionConflict); }
      if w.WriteFailed? { return Err(Failed); }
      return found;
    }

    method LoadLeaderInstance(cluster: Cluster) returns (r: Result<string, ElectionError>)
      ensures r == Load(cluster.foreignLeader, cluster.Value().status, pods)
    {
      var leader := cluster.GetLeader();
      if leader == "" { return Err(LeaderNotElected); }
      match Look(pods, leader) {
        case Missing => return Err(PodNotFound);
        case LookupFails => return Err(Failed);
        case Found(view) =>
          var fit := CanBeLeader(view, cluster.bootstrapped);
          if fit.Err? { return Err(fit.error); }
          if !fit.value { return Err(LeaderNotReady); }
          return Ok(leader);
      }
    }

    /** The bounds of the search loops. */
    static method Maxima(rs: seq<RoleShape>) returns (maxReplicasets: int32, maxReplicas: int32)
      ensures maxReplicasets == MaxReplicasets(rs) && maxReplicas == MaxReplicas(rs)
    {
      maxReplicasets, maxReplicas := 0, 0;
      for k := 0 to |rs|
        invariant maxReplicasets == MaxReplicasets(rs[..k]) && maxReplicas == MaxReplicas(rs[..k])
      {
        assert rs[..k + 1][..k] == rs[..k];
        if maxReplicasets < rs[k].replicasets { maxReplicasets := rs[k].replicasets; }
        if maxReplicas < rs[k].replicas { maxReplicas := rs[k].replicas; }
      }
      assert rs[..|rs|] == rs;
    }

    /** The innermost loop: one replicaset and pod ordinal, every role. */
    method TryRoles(cluster: Cluster, rs: seq<RoleShape>, ghost maxR: int, ghost maxP: int, podOrdinal: int,
                    replicasetOrdinal: int, ghost answer: Result<string, ElectionError>)
      returns (found: Option<Result<string, ElectionError>>)
      requires 0 <= podOrdinal < maxP && 0 <= replicasetOrdinal < maxR
      requires Remaining(rs, maxR, maxP, podOrdinal, replicasetOrdinal, 0,
                         Query(cluster.GetLeader(), cluster.bootstrapped, pods), answer)
      ensures if found.Some? then found.value == answer
              else Remaining(rs, maxR, maxP, podOrdinal, replicasetOrdinal + 1, 0,
                             Query(cluster.GetLeader(), cluster.bootstrapped, pods), answer)
    {
      ghost var q := Query(cluster.GetLeader(), cluster.bootstrapped, pods);
      for i := 0 to |rs|
        invariant Remaining(rs, maxR, maxP, podOrdinal, replicasetOrdinal, i, q, answer)
      {
        OneTurn(rs, maxR, maxP, podOrdinal, replicasetOrdinal, i, q, answer);
        if rs[i].replicasets <= replicasetOrdinal { continue; }
        if rs[i].replicas <= podOrdinal { continue; }
        var podName := Names.PodName(rs[i].name, replicasetOrdinal, podOrdinal);
        if podName == cluster.GetLeader() { continue; }
        var pod := Look(pods, podName);
        if pod.Missing? { continue; }
        if pod.LookupFails? { return Some(Err(Failed)); }
        var fit := CanBeLeader(pod.view, cluster.bootstrapped);
        if fit.Err? { return Some(Err(fit.error)); }
        if fit.value { return Some(Ok(podName)); }
      }
      return None;
    }

    method FindNewLeaderInstance(cluster: Cluster) returns (r: Result<string, ElectionError>)
      ensures r == FindNewLeader(roles, Query(cluster.GetLeader(), cluster.bootstrapped, pods))
    {
      if roles.None? { return Err(Failed); }
      var rs := roles.value;
      var maxReplicasets, maxReplicas := Maxima(rs);

      ghost var q := Query(cluster.GetLeader(), cluster.bootstrapped, pods);
      VisitsExact(rs);
      ghost var answer := Pick(Visits(rs), JudgeOf(rs, q));
      var found: Option<Result<string, ElectionError>>;

      for podOrdinal := 0 to maxReplicas
        invariant Remaining(rs, maxReplicasets, maxReplicas, podOrdinal, 0, 0, q, answer)
      {
        for replicasetOrdinal := 0 to maxReplicasets
          invariant Remaining(rs, maxReplicasets, maxReplicas, podOrdinal, replicasetOrdinal, 0, q, answer)
        {
          found := TryRoles(cluster, rs, maxReplicasets, maxReplicas, podOrdinal, replicasetOrdinal, answer);
          if found.Some? { return found.value; }
        }
      }
      return Err(NoAvailableLeader);
    }
  }
}
