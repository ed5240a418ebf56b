/**
Cartridge roles of a replicaset: the comparison that respects the hierarchy of roles, and
`ConfigureVShardRolesStep`, which edits the topology only where the comparison fails.
*/
module VShardRoles {
  import opened Basics
  import J = Joining
  import opened Names
  import opened Verdicts

  type Hierarchy = map<string, seq<string>>

  /** A role that is not in the map has no dependencies. */
  function Deps(h: Hierarchy, role: string): seq<string> {
    if role in h then h[role] else []
  }

  /** What a list of roles enables: the roles and, one level deep, what they depend on. */
  ghost predicate Enables(roles: seq<string>, h: Hierarchy, x: string) {
    x in roles || exists r :: r in roles && x in Deps(h, r)
  }

  method VShardRolesToMap(roles: seq<string>, h: Hierarchy) returns (rmap: map<string, bool>)
    ensures forall x :: x in rmap <==> Enables(roles, h, x)
    ensures forall x | x in rmap :: rmap[x]
  {
    rmap := map[];
    for i := 0 to |roles|
      invariant forall x :: x in rmap <==> Enables(roles[..i], h, x)
      invariant forall x | x in rmap :: rmap[x]
    {
      ghost var before := rmap;
      rmap := MarkRole(rmap, roles[i], Deps(h, roles[i]));
      forall x
        ensures x in rmap <==> Enables(roles[..i + 1], h, x)
      {
        OneMoreRole(roles, i, h, x);
        assert x in before <==> Enables(roles[..i], h, x);
      }
    }
    assert roles[..|roles|] == roles;
  }

  /** The body of the outer loop: the role and what it depends on. */
  method MarkRole(rmap: map<string, bool>, role: string, deps: seq<string>) returns (r: map<string, bool>)
    requires forall x | x in rmap :: rmap[x]
    ensures forall x :: x in r <==> x in rmap || x == role || x in deps
    ensures forall x | x in r :: r[x]
  {
    r := rmap[role := true];
    for j := 0 to |deps|
      invariant forall x :: x in r <==> x in rmap || x == role || x in deps[..j]
      invariant forall x | x in r :: r[x]
    {
      r := r[deps[j] := true];
    }
  }

  lemma OneMoreRole(roles: seq<string>, i: nat, h: Hierarchy, x: string)
    requires i < |roles|
    ensures Enables(roles[..i + 1], h, x) <==> Enables(roles[..i], h, x) || x == roles[i] || x in Deps(h, roles[i])
  {
    assert roles[..i + 1] == roles[..i] + [roles[i]];
    assert roles[i] in roles[..i + 1];
  }

  /** Two lists count as equal when they enable the same roles. */
  ghost predicate Same(a: seq<string>, b: seq<string>, h: Hierarchy) {
    forall x :: Enables(a, h, x) <==> Enables(b, h, x)
  }

  method IsVShardRolesEquals(a: seq<string>, b: seq<string>, h: Hierarchy) returns (equal: bool)
    ensures equal <==> Same(a, b, h)
  {
    var left := VShardRolesToMap(a, h);
    var right := VShardRolesToMap(b, h);
    equal := left == right;
    if left.Keys == right.Keys { assert left == right; }
  }

  // ---------------------------------------------------------------- a closure, if the hierarchy is closed

  /** Dependencies of dependencies are listed as dependencies. */
  ghost predicate Closed(h: Hierarchy) {
    forall r, d, e | d in Deps(h, r) && e in Deps(h, d) :: e == r || e in Deps(h, r)
  }

  ghost predicate Within(a: seq<string>, b: seq<string>) { forall x | x in a :: x in b }

  /** All of a's roles are enabled by b. */
  ghost predicate Covers(b: seq<string>, h: Hierarchy, a: seq<string>) { forall x | x in a :: Enables(b, h, x) }

  /** The map has the roles themselves, and more roles never enable less. */
  lemma ExtensiveAndMonotone(a: seq<string>, b: seq<string>, h: Hierarchy)
    ensures Covers(a, h, a)
    ensures Within(a, b) ==> forall x | Enables(a, h, x) :: Enables(b, h, x)
  {}

  /** In a closed hierarchy, whatever roles a list enables it also covers the dependencies of. */
  lemma CoveredAddNothing(a: seq<string>, b: seq<string>, h: Hierarchy)
    requires Closed(h) && Covers(b, h, a)
    ensures forall x | Enables(a, h, x) :: Enables(b, h, x)
  {
    forall x | Enables(a, h, x)
      ensures Enables(b, h, x)
    {
      if x !in a {
        var r :| r in a && x in Deps(h, r);
        if r !in b {
          var top :| top in b && r in Deps(h, top);
          assert x == top || x in Deps(h, top);
        }
      }
    }
  }

  /** Idempotent: a list of exactly the roles that a enables counts as equal to a. */
  lemma Idempotent(a: seq<string>, all: seq<string>, h: Hierarchy)
    requires Closed(h) && forall x :: x in all <==> Enables(a, h, x)
    ensures Same(a, all, h)
  {
    CoveredAddNothing(all, a, h);
    ExtensiveAndMonotone(a, all, h);
  }

  /** In a closed hierarchy two lists count as equal exactly when each covers the other. */
  lemma SameIffMutuallyCovered(a: seq<string>, b: seq<string>, h: Hierarchy)
    requires Closed(h)
    ensures Same(a, b, h) <==> Covers(a, h, b) && Covers(b, h, a)
  {
    if Same(a, b, h) {
      forall x | x in a ensures Enables(b, h, x) { assert Enables(a, h, x); }
      forall x | x in b ensures Enables(a, h, x) { assert Enables(b, h, x); }
    }
    if Covers(a, h, b) && Covers(b, h, a) {
      CoveredAddNothing(a, b, h);
      CoveredAddNothing(b, a, h);
    }
  }

  /** What cartridge may report after the desired roles were set: they, and some of what they enable. */
  ghost predicate Between(desired: seq<string>, reported: seq<string>, h: Hierarchy) {
    Within(desired, reported) && Covers(desired, h, reported)
  }

  /** Every such report counts as equal to the desired roles. */
  ghost predicate RecognisesReports(h: Hierarchy) {
    forall desired, reported | Between(desired, reported, h) :: Same(reported, desired, h)
  }

  /** The comparison recognises every report exactly when the hierarchy is closed. */
  lemma ReportsRecognisedIff(h: Hierarchy)
    ensures RecognisesReports(h) <==> Closed(h)
  {
    if Closed(h) {
      forall desired, reported | Between(desired, reported, h)
        ensures Same(reported, desired, h)
      {
        SameIffMutuallyCovered(reported, desired, h);
      }
    }
    if RecognisesReports(h) {
      forall r, d, e | d in Deps(h, r) && e in Deps(h, d)
        ensures e == r || e in Deps(h, r)
      {
        assert r in [r] && d in [r, d];
        assert Between([r], [r, d], h);
        assert Same([r, d], [r], h);
        assert Enables([r, d], h, e);
        assert Enables([r], h, e);
      }
    }
  }

  /** A hierarchy with direct dependencies only: a report of two of three chained roles is not recognised. */
  lemma DirectDependenciesDiffer()
    ensures var h: Hierarchy := map["storage" := ["router"], "router" := ["metrics"]];
      Between(["storage"], ["storage", "router"], h) && !Same(["storage", "router"], ["storage"], h)
  {
    var h: Hierarchy := map["storage" := ["router"], "router" := ["metrics"]];
    assert "storage" in ["storage"] && "router" in ["storage", "router"];
    assert "router" in Deps(h, "storage") && "metrics" in Deps(h, "router");
    assert Enables(["storage", "router"], h, "metrics");
    assert !Enables(["storage"], h, "metrics") by {
      assert Deps(h, "storage") == ["router"];
    }
  }

  // ---------------------------------------------------------------- one pass of the step

  datatype Edit = Edit(uuid: string, roles: seq<string>)

  /** The roles cartridge reports by replicaset UUID, and the edits made so far. */
  datatype Config = Config(reported: map<string, seq<string>>, edits: seq<Edit>)

  /**
  The environment of one iteration: the hierarchy or an error, whether the read fails,
  whether the edit is answered with a failure and lands all the same, and what cartridge
  reports once it landed.
  */
  datatype Answer = Answer(hierarchy: Option<Hierarchy>, readFails: bool, editFails: bool, lands: bool,
                           reports: seq<string>)

  function Reported(c: Config, uuid: string): seq<string> {
    if uuid in c.reported then c.reported[uuid] else []
  }

  function AfterEdit(c: Config, e: Edit, a: Answer): Config {
    Config(if !a.editFails || a.lands then c.reported[e.uuid := a.reports] else c.reported, c.edits + [e])
  }

  /** What the loops meet: an ordinal whose list failed, or a StatefulSet that is not being deleted. */
  datatype Stop = Unlisted | Replicaset(ordinal: nat)

  function StopsFrom(replicasets: int, lists: seq<J.Listing>, o: nat, i: nat): seq<Stop>
    decreases replicasets - o, match J.ListAt(lists, o) { case ListFails => 0 case Listed(items) => |items| - i }
  {
    if o >= replicasets then []
    else
      match J.ListAt(lists, o)
      case ListFails => [Unlisted] + StopsFrom(replicasets, lists, o + 1, 0)
      case Listed(items) =>
        if i >= |items| then StopsFrom(replicasets, lists, o + 1, 0)
        else if items[i].deleting then StopsFrom(replicasets, lists, o, i + 1)
        else [Replicaset(o)] + StopsFrom(replicasets, lists, o, i + 1)
  }

  function Stops(replicasets: int, lists: seq<J.Listing>): seq<Stop> {
    StopsFrom(replicasets, lists, 0, 0)
  }

  /** A listed StatefulSet of an ordinal in range that is not being deleted. */
  ghost predicate Live(replicasets: int, lists: seq<J.Listing>, o: nat, i: nat) {
    o < replicasets && J.ListAt(lists, o).Listed? && i < |lists[o].items| && !lists[o].items[i].deleting
  }

  ghost predicate SomeLive(replicasets: int, lists: seq<J.Listing>, o: nat) {
    exists i: nat :: Live(replicasets, lists, o, i)
  }

  ghost predicate SomeListFails(replicasets: int, lists: seq<J.Listing>) {
    exists o: nat :: o < replicasets && J.ListAt(lists, o).ListFails?
  }

  lemma {:induction false} StopsAreLive(replicasets: int, lists: seq<J.Listing>, o: nat, i: nat, v: Stop)
    requires v in StopsFrom(replicasets, lists, o, i)
    ensures if v.Unlisted? then SomeListFails(replicasets, lists) else SomeLive(replicasets, lists, v.ordinal)
    decreases replicasets - o, match J.ListAt(lists, o) { case ListFails => 0 case Listed(items) => |items| - i }
  {
    match J.ListAt(lists, o)
    case ListFails =>
      if !v.Unlisted? { StopsAreLive(replicasets, lists, o + 1, 0, v); }
    case Listed(items) =>
      if i >= |items| {
        StopsAreLive(replicasets, lists, o + 1, 0, v);
      } else if !items[i].deleting && v == Replicaset(o) {
        assert Live(replicasets, lists, o, i);
      } else {
        StopsAreLive(replicasets, lists, o, i + 1, v);
      }
  }

  lemma {:induction false} LiveIsStop(replicasets: int, lists: seq<J.Listing>, o: nat, i: nat, o': nat, i': nat)
    requires Live(replicasets, lists, o', i') && (o < o' || (o == o' && i <= i'))
    ensures Replicaset(o') in StopsFrom(replicasets, lists, o, i)
    decreases replicasets - o, match J.ListAt(lists, o) { case ListFails => 0 case Listed(items) => |items| - i }
  {
    match J.ListAt(lists, o)
    case ListFails => LiveIsStop(replicasets, lists, o + 1, 0, o', i');
    case Listed(items) =>
      if (o, i) == (o', i') {
      } else if i >= |items| {
        LiveIsStop(replicasets, lists, o + 1, 0, o', i');
      } else {
        LiveIsStop(replicasets, lists, o, i + 1, o', i');
      }
  }

  lemma {:induction false} FailedListIsStop(replicasets: int, lists: seq<J.Listing>, o: nat, i: nat, bad: nat)
    requires o <= bad < replicasets && J.ListAt(lists, bad).ListFails?
    ensures Unlisted in StopsFrom(replicasets, lists, o, i)
    decreases replicasets - o, match J.ListAt(lists, o) { case ListFails => 0 case Listed(items) => |items| - i }
  {
    match J.ListAt(lists, o)
    case ListFails =>
    case Listed(items) =>
      if i >= |items| {
        FailedListIsStop(replicasets, lists, o + 1, 0, bad);
      } else {
        FailedListIsStop(replicasets, lists, o, i + 1, bad);
      }
  }

  /**
  The loops stop exactly at the ordinals with a listed StatefulSet that is not being deleted,
  and at failed lists.
  */
  lemma StopsAreExact(replicasets: int, lists: seq<J.Listing>)
    ensures forall o: nat :: Replicaset(o) in Stops(replicasets, lists) <==> SomeLive(replicasets, lists, o)
    ensures Unlisted in Stops(replicasets, lists) <==> SomeListFails(replicasets, lists)
  {
    forall o: nat
      ensures Replicaset(o) in Stops(replicasets, lists) <==> SomeLive(replicasets, lists, o)
    {
      if Replicaset(o) in Stops(replicasets, lists) { StopsAreLive(replicasets, lists, 0, 0, Replicaset(o)); }
      if i: nat :| Live(replicasets, lists, o, i) { LiveIsStop(replicasets, lists, 0, 0, o, i); }
    }
    if Unlisted in Stops(replicasets, lists) { StopsAreLive(replicasets, lists, 0, 0, Unlisted); }
    if o: nat :| o < replicasets && J.ListAt(lists, o).ListFails? { FailedListIsStop(replicasets, lists, 0, 0, o); }
  }

  /** What a pass is about: the role's name and desired roles, and the UUID of a replicaset name. */
  datatype Task = Task(role: string, desired: seq<string>, uuidOf: string -> string) {
    function UuidOf(ordinal: nat): string { uuidOf(ReplicasetName(role, ordinal)) }
  }

  datatype Pass = Pass(config: Config, allConfigured: bool)

  ghost function Treat(t: Task, v: Stop, a: Answer, s: Pass): Pass {
    if v.Unlisted? || a.hierarchy.None? || a.readFails then s.(allConfigured := false)
    else if Same(Reported(s.config, t.UuidOf(v.ordinal)), t.desired, a.hierarchy.value) then s
    else Pass(AfterEdit(s.config, Edit(t.UuidOf(v.ordinal), t.desired), a), s.allConfigured && !a.editFails)
  }

  ghost function TreatAll(t: Task, stops: seq<Stop>, k: nat, at: nat -> Answer, s: Pass): Pass {
    if |stops| == 0 then s else TreatAll(t, stops[1..], k + 1, at, Treat(t, stops[0], at(k), s))
  }

  /** The verdict of the step. */
  function Configured(s: Pass): Verdict { if s.allConfigured then NEXT_STEP else Requeue(10) }

  // ---------------------------------------------------------------- what is edited, and when a pass counts as complete

  /** The replicaset was listed, hierarchy and roles were read, and the roles are not the desired ones. */
  ghost predicate EditDue(t: Task, v: Stop, a: Answer, c: Config) {
    && v.Replicaset? && a.hierarchy.Some? && !a.readFails
    && !Same(Reported(c, t.UuidOf(v.ordinal)), t.desired, a.hierarchy.value)
  }

  /**
  The replicaset was listed, hierarchy and roles were read, and the roles are the desired ones
  or were set without error.
  */
  ghost predicate Succeeds(t: Task, v: Stop, a: Answer, c: Config) {
    && v.Replicaset? && a.hierarchy.Some? && !a.readFails
    && (Same(Reported(c, t.UuidOf(v.ordinal)), t.desired, a.hierarchy.value) || !a.editFails)
  }

  /** The state in which the j-th of the remaining stops is treated. */
  ghost function Before(t: Task, stops: seq<Stop>, k: nat, at: nat -> Answer, s: Pass, j: nat): Pass
    requires j <= |stops|
    decreases j
  {
    if j == 0 then s else Before(t, stops[1..], k + 1, at, Treat(t, stops[0], at(k), s), j - 1)
  }

  ghost predicate SucceedsAt(t: Task, stops: seq<Stop>, k: nat, at: nat -> Answer, s: Pass, j: nat) {
    j < |stops| && Succeeds(t, stops[j], at(k + j), Before(t, stops, k, at, s, j).config)
  }

  /** The edits that are due when the loops come to them, in order. */
  ghost function DueEdits(t: Task, stops: seq<Stop>, k: nat, at: nat -> Answer, s: Pass): seq<Edit> {
    if |stops| == 0 then []
    else
      (if EditDue(t, stops[0], at(k), s.config) then [Edit(t.UuidOf(stops[0].ordinal), t.desired)] else [])
      + DueEdits(t, stops[1..], k + 1, at, Treat(t, stops[0], at(k), s))
  }

  lemma TreatByAnswer(t: Task, v: Stop, a: Answer, s: Pass)
    ensures var s' := Treat(t, v, a, s);
      && s'.config.edits ==
          s.config.edits + (if EditDue(t, v, a, s.config) then [Edit(t.UuidOf(v.ordinal), t.desired)] else [])
      && s'.config.reported ==
          (if EditDue(t, v, a, s.config) && (!a.editFails || a.lands)
           then s.config.reported[t.UuidOf(v.ordinal) := a.reports] else s.config.reported)
      && (s'.allConfigured <==> s.allConfigured && Succeeds(t, v, a, s.config))
  {}

  lemma Regrouped(a: seq<Edit>, b: seq<Edit>, c: seq<Edit>)
    ensures (a + b) + c == a + (b + c)
  {}

  /** A pass edits what is due and nothing else, whatever fails in between. */
  lemma {:induction false} EditsAreThoseDue(t: Task, stops: seq<Stop>, k: nat, at: nat -> Answer, s: Pass)
    ensures TreatAll(t, stops, k, at, s).config.edits == s.config.edits + DueEdits(t, stops, k, at, s)
  {
    if |stops| == 0 {
    } else {
      var s' := Treat(t, stops[0], at(k), s);
      TreatByAnswer(t, stops[0], at(k), s);
      EditsAreThoseDue(t, stops[1..], k + 1, at, s');
      var first := if EditDue(t, stops[0], at(k), s.config) then [Edit(t.UuidOf(stops[0].ordinal), t.desired)] else [];
      Regrouped(s.config.edits, first, DueEdits(t, stops[1..], k + 1, at, s'));
    }
  }

  lemma LaterStop(t: Task, stops: seq<Stop>, k: nat, at: nat -> Answer, s: Pass, j: nat)
    requires j + 1 < |stops|
    ensures SucceedsAt(t, stops, k, at, s, j + 1) <==>
      SucceedsAt(t, stops[1..], k + 1, at, Treat(t, stops[0], at(k), s), j)
  {
    assert at(k + (j + 1)) == at((k + 1) + j);
  }

  /** A pass counts as complete exactly if every one of its stops succeeds, judged when the loops come to it. */
  lemma {:induction false} CompleteIffAllSucceed(t: Task, stops: seq<Stop>, k: nat, at: nat -> Answer, s: Pass)
    ensures TreatAll(t, stops, k, at, s).allConfigured <==>
      s.allConfigured && forall j: nat | j < |stops| :: SucceedsAt(t, stops, k, at, s, j)
  {
    if |stops| == 0 {
    } else {
      var s', rest, k' := Treat(t, stops[0], at(k), s), stops[1..], k + 1;
      TreatByAnswer(t, stops[0], at(k), s);
      CompleteIffAllSucceed(t, rest, k', at, s');
      assert SucceedsAt(t, stops, k, at, s, 0) <==> Succeeds(t, stops[0], at(k), s.config) by {
        assert at(k + 0) == at(k);
      }
      forall j: nat | 0 < j < |stops|
        ensures SucceedsAt(t, stops, k, at, s, j) <==> SucceedsAt(t, rest, k', at, s', j - 1)
      {
        LaterStop(t, stops, k, at, s, j - 1);
      }
      if forall j: nat | j < |stops| :: SucceedsAt(t, stops, k, at, s, j) {
        forall j: nat | j < |rest|
          ensures SucceedsAt(t, rest, k', at, s', j)
        {
          assert SucceedsAt(t, stops, k, at, s, j + 1);
        }
      }
    }
  }

  /** A pass in which some stop does not succeed is tried again soon. */
  lemma IncompleteIsRequeued(t: Task, stops: seq<Stop>, at: nat -> Answer, c: Config, j: nat)
    requires j < |stops| && !SucceedsAt(t, stops, 0, at, Pass(c, true), j)
    ensures Configured(TreatAll(t, stops, 0, at, Pass(c, true))) == Requeue(10)
  {
    CompleteIffAllSucceed(t, stops, 0, at, Pass(c, true));
  }

  // ---------------------------------------------------------------- it settles

  /** Cartridge answers with one hierarchy, and reports what was set, up to dependencies. */
  ghost predicate Honest(h: Hierarchy, desired: seq<string>, at: nat -> Answer) {
    forall k :: (at(k).hierarchy.Some? ==> at(k).hierarchy.value == h) && Between(desired, at(k).reports, h)
  }

  ghost predicate UpToDate(t: Task, h: Hierarchy, c: Config, uuid: string) { Same(Reported(c, uuid), t.desired, h) }

  lemma TreatSettles(t: Task, h: Hierarchy, v: Stop, k: nat, at: nat -> Answer, s: Pass)
    requires Closed(h) && Honest(h, t.desired, at)
    ensures var s' := Treat(t, v, at(k), s);
      && (forall uuid | UpToDate(t, h, s.config, uuid) :: UpToDate(t, h, s'.config, uuid))
      && (s'.allConfigured ==> s.allConfigured && v.Replicaset? && UpToDate(t, h, s'.config, t.UuidOf(v.ordinal)))
  {
    ReportsRecognisedIff(h);
    assert Between(t.desired, at(k).reports, h);
    assert Same(at(k).reports, t.desired, h);
  }

  /** A replicaset that is up to date stays so, and a pass that counts as complete leaves every one up to date. */
  lemma {:induction false} CompleteMeansUpToDate(t: Task, h: Hierarchy, stops: seq<Stop>, k: nat, at: nat -> Answer,
                                                 s: Pass)
    requires Closed(h) && Honest(h, t.desired, at)
    ensures var end := TreatAll(t, stops, k, at, s);
      && (forall uuid | UpToDate(t, h, s.config, uuid) :: UpToDate(t, h, end.config, uuid))
      && (end.allConfigured ==> s.allConfigured && forall v | v in stops ::
            v.Replicaset? && UpToDate(t, h, end.config, t.UuidOf(v.ordinal)))
  {
    if |stops| == 0 {
    } else {
      TreatSettles(t, h, stops[0], k, at, s);
      CompleteMeansUpToDate(t, h, stops[1..], k + 1, at, Treat(t, stops[0], at(k), s));
      assert stops == [stops[0]] + stops[1..];
    }
  }

  /**
  The contract of the step: when it lets the run go on, every list succeeded, and every
  ordinal with a StatefulSet that is not being deleted has roles that count as the desired ones.
  */
  lemma NextStepMeansConfigured(t: Task, h: Hierarchy, replicasets: int, lists: seq<J.Listing>, at: nat -> Answer,
                                c: Config)
    requires Closed(h) && Honest(h, t.desired, at)
    requires Configured(TreatAll(t, Stops(replicasets, lists), 0, at, Pass(c, true))) == NEXT_STEP
    ensures forall o: nat | o < replicasets :: J.ListAt(lists, o).Listed?
    ensures forall o: nat | SomeLive(replicasets, lists, o) ::
      UpToDate(t, h, TreatAll(t, Stops(replicasets, lists), 0, at, Pass(c, true)).config, t.UuidOf(o))
  {
    var stops := Stops(replicasets, lists);
    StopsAreExact(replicasets, lists);
    CompleteMeansUpToDate(t, h, stops, 0, at, Pass(c, true));
    assert Unlisted !in stops;
    forall o: nat | SomeLive(replicasets, lists, o)
      ensures UpToDate(t, h, TreatAll(t, stops, 0, at, Pass(c, true)).config, t.UuidOf(o))
    {
      assert Replicaset(o) in stops;
    }
  }

  /** A pass over replicasets that are up to date edits nothing, whichever of its reads fail. */
  lemma {:induction false} UpToDateMeansQuiet(t: Task, h: Hierarchy, stops: seq<Stop>, k: nat, at: nat -> Answer,
                                              s: Pass)
    requires forall k :: at(k).hierarchy.Some? ==> at(k).hierarchy.value == h
    requires forall v | v in stops && v.Replicaset? :: UpToDate(t, h, s.config, t.UuidOf(v.ordinal))
    ensures TreatAll(t, stops, k, at, s).config == s.config
  {
    if |stops| == 0 {
    } else {
      var s' := Treat(t, stops[0], at(k), s);
      assert stops[0] in stops;
      assert s'.config == s.config;
      UpToDateMeansQuiet(t, h, stops[1..], k + 1, at, s');
    }
  }

  /**
  Reconciling settles: after a pass that let the run go on, another pass over the same
  replicasets makes no `SetReplicasetRoles` call, whatever its own lists and reads answer.
  */
  lemma SecondPassEditsNothing(t: Task, h: Hierarchy, replicasets: int, lists: seq<J.Listing>, at: nat -> Answer,
                               lists': seq<J.Listing>, at': nat -> Answer, s: Pass)
    requires Closed(h) && Honest(h, t.desired, at) && Honest(h, t.desired, at')
    requires Configured(TreatAll(t, Stops(replicasets, lists), 0, at, s)) == NEXT_STEP
    requires forall v | v in Stops(replicasets, lists') && v.Replicaset? :: v in Stops(replicasets, lists)
    ensures var config := TreatAll(t, Stops(replicasets, lists), 0, at, s).config;
      TreatAll(t, Stops(replicasets, lists'), 0, at', Pass(config, true)).config == config
  {
    var stops := Stops(replicasets, lists);
    CompleteMeansUpToDate(t, h, stops, 0, at, s);
    UpToDateMeansQuiet(t, h, Stops(replicasets, lists'), 0, at', Pass(TreatAll(t, stops, 0, at, s).config, true));
  }

  /** The remote side after n passes over the same replicasets; `at(i)` answers in the i-th pass. */
  ghost function Passes(t: Task, stops: seq<Stop>, at: nat -> nat -> Answer, n: nat, c: Config): Config {
    if n == 0 then c else TreatAll(t, stops, 0, at(n - 1), Pass(Passes(t, stops, at, n - 1, c), true)).config
  }

  /** Every read succeeds, and what cartridge reports after an edit is not recognised. */
  ghost predicate NeverRecognised(h: Hierarchy, desired: seq<string>, at: nat -> Answer) {
    forall k :: at(k).hierarchy == Some(h) && !at(k).readFails && !Same(at(k).reports, desired, h)
  }

  /** None of the visited replicasets counts as up to date. */
  ghost predicate AllOutdated(t: Task, h: Hierarchy, c: Config, stops: seq<Stop>) {
    forall v | v in stops :: v.Replicaset? && !UpToDate(t, h, c, t.UuidOf(v.ordinal))
  }

  lemma {:induction false} OutdatedIsEdited(t: Task, h: Hierarchy, all: seq<Stop>, stops: seq<Stop>, k: nat,
                                            at: nat -> Answer, s: Pass)
    requires NeverRecognised(h, t.desired, at) && AllOutdated(t, h, s.config, all) && forall v | v in stops :: v in all
    ensures var end := TreatAll(t, stops, k, at, s);
      |end.config.edits| == |s.config.edits| + |stops| && AllOutdated(t, h, end.config, all)
  {
    if |stops| == 0 {
    } else {
      var s' := Treat(t, stops[0], at(k), s);
      assert stops[0] in stops && forall v | v in stops[1..] :: v in stops;
      assert !Same(at(k).reports, t.desired, h);
      OutdatedIsEdited(t, h, all, stops[1..], k + 1, at, s');
    }
  }

  /**
  While reports are not recognised, every pass edits every replicaset again, whether the
  edits succeed or not: n passes make exactly n edits of each.
  */
  lemma {:induction false} UnrecognisedReportsAreEditedForever(t: Task, h: Hierarchy, stops: seq<Stop>,
      at: nat -> nat -> Answer, n: nat, c: Config)
    requires AllOutdated(t, h, c, stops) && forall i: nat :: NeverRecognised(h, t.desired, at(i))
    ensures var c' := Passes(t, stops, at, n, c);
      |c'.edits| == |c.edits| + n * |stops| && AllOutdated(t, h, c', stops)
  {
    if n == 0 {
    } else {
      UnrecognisedReportsAreEditedForever(t, h, stops, at, n - 1, c);
      assert NeverRecognised(h, t.desired, at(n - 1));
      OutdatedIsEdited(t, h, stops, stops, 0, at(n - 1), Pass(Passes(t, stops, at, n - 1, c), true));
      assert n * |stops| == (n - 1) * |stops| + |stops|;
    }
  }

  /** These desired roles are reported back honestly as these, and yet every pass edits the topology again. */
  ghost predicate NeverSettles(h: Hierarchy, desired: seq<string>, reported: seq<string>) {
    && Between(desired, reported, h)
    && forall t: Task, stops: seq<Stop>, n: nat, c: Config |
         t.desired == desired && AllOutdated(t, h, c, stops) :: EditedEachTime(t, h, reported, stops, n, c)
  }

  /** Where cartridge always reports these roles, n passes edit every replicaset n times. */
  ghost predicate EditedEachTime(t: Task, h: Hierarchy, reported: seq<string>, stops: seq<Stop>, n: nat, c: Config) {
    |Passes(t, stops, _ => _ => Answer(Some(h), false, false, true, reported), n, c).edits| == |c.edits| + n * |stops|
  }

  /** In a hierarchy that is not closed some honest report makes every pass edit the topology again. */
  lemma OpenHierarchyNeverSettles(h: Hierarchy)
    requires !Closed(h)
    ensures exists desired, reported :: NeverSettles(h, desired, reported)
  {
    ReportsRecognisedIff(h);
    var desired, reported :| Between(desired, reported, h) && !Same(reported, desired, h);
    forall t: Task, stops: seq<Stop>, n: nat, c: Config | t.desired == desired && AllOutdated(t, h, c, stops)
      ensures EditedEachTime(t, h, reported, stops, n, c)
    {
      UnrecognisedReportsAreEditedForever(t, h, stops, _ => _ => Answer(Some(h), false, false, true, reported), n, c);
    }
    assert NeverSettles(h, desired, reported);
  }

  /** After any pass that let the run go on, a further pass over the same replicasets edits nothing. */
  ghost predicate AlwaysSettles(h: Hierarchy) {
    forall t: Task, stops: seq<Stop>, at: nat -> Answer, at': nat -> Answer, c: Config |
      Honest(h, t.desired, at) && Honest(h, t.desired, at') && TreatAll(t, stops, 0, at, Pass(c, true)).allConfigured ::
      QuietAfter(t, stops, at, at', c)
  }

  ghost predicate QuietAfter(t: Task, stops: seq<Stop>, at: nat -> Answer, at': nat -> Answer, c: Config) {
    var c' := TreatAll(t, stops, 0, at, Pass(c, true)).config;
    TreatAll(t, stops, 0, at', Pass(c', true)).config == c'
  }

  /** Reconciling always settles exactly in closed hierarchies. */
  lemma SettlesIffClosed(h: Hierarchy)
    ensures AlwaysSettles(h) <==> Closed(h)
  {
    if Closed(h) {
      forall t: Task, stops: seq<Stop>, at: nat -> Answer, at': nat -> Answer, c: Config |
        Honest(h, t.desired, at) && Honest(h, t.desired, at') && TreatAll(t, stops, 0, at, Pass(c, true)).allConfigured
        ensures QuietAfter(t, stops, at, at', c)
      {
        CompleteMeansUpToDate(t, h, stops, 0, at, Pass(c, true));
        UpToDateMeansQuiet(t, h, stops, 0, at', Pass(TreatAll(t, stops, 0, at, Pass(c, true)).config, true));
      }
    } else {
      ReportsRecognisedIff(h);
      var desired, reported :| Between(desired, reported, h) && !Same(reported, desired, h);
      OpenHierarchyRestless(h, desired, reported);
    }
  }

  /** One replicaset that reports these roles is edited in the first pass and again in the second. */
  lemma OpenHierarchyRestless(h: Hierarchy, desired: seq<string>, reported: seq<string>)
    requires Between(desired, reported, h) && !Same(reported, desired, h)
    ensures !AlwaysSettles(h)
  {
    var t := Task("", desired, _ => "");
    var stops := [Replicaset(0)];
    var at := _ => Answer(Some(h), false, false, true, reported);
    var c := Config(map["" := reported], []);
    assert Reported(c, t.UuidOf(0)) == reported;
    var first := TreatAll(t, stops, 0, at, Pass(c, true));
    assert TreatAll(t, stops[1..], 1, at, Treat(t, stops[0], at(0), Pass(c, true))) ==
           Treat(t, stops[0], at(0), Pass(c, true));
    assert first.allConfigured;
    OutdatedIsEdited(t, h, stops, stops, 0, at, Pass(c, true));
    OutdatedIsEdited(t, h, stops, stops, 0, at, Pass(first.config, true));
    assert Honest(h, t.desired, at);
    assert !QuietAfter(t, stops, at, at, c);
  }

  /** Every edit of a pass sets the desired roles of a replicaset of this role, under the UUID it joins with. */
  lemma {:induction false} EditsAreOwn(t: Task, stops: seq<Stop>, k: nat, at: nat -> Answer, s: Pass)
    ensures var end := TreatAll(t, stops, k, at, s);
      && s.config.edits <= end.config.edits
      && forall e | e in end.config.edits[|s.config.edits|..] ::
           e.roles == t.desired && exists v :: v in stops && v.Replicaset? && e.uuid == t.UuidOf(v.ordinal)
  {
    if |stops| == 0 {
    } else {
      var s' := Treat(t, stops[0], at(k), s);
      EditsAreOwn(t, stops[1..], k + 1, at, s');
      var end := TreatAll(t, stops, k, at, s);
      assert stops[0] in stops && forall v | v in stops[1..] :: v in stops;
      forall e | e in end.config.edits[|s.config.edits|..]
        ensures e.roles == t.desired && exists v :: v in stops && v.Replicaset? && e.uuid == t.UuidOf(v.ordinal)
      {
        if e in end.config.edits[|s'.config.edits|..] {
          var v :| v in stops[1..] && v.Replicaset? && e.uuid == t.UuidOf(v.ordinal);
          assert v in stops;
        } else {
          var n :| |s.config.edits| <= n < |end.config.edits| && end.config.edits[n] == e;
          assert n < |s'.config.edits|;
          assert e == s'.config.edits[n];
          assert e == Edit(t.UuidOf(stops[0].ordinal), t.desired);
        }
      }
    }
  }

  // ---------------------------------------------------------------- the operator's code

  class RolesTopology {
    var config: Config

    constructor (c: Config)
      ensures config == c
    {
      config := c;
    }

    method GetReplicasetRoles(uuid: string, a: Answer) returns (r: Option<seq<string>>)
      ensures r == if a.readFails then None else Some(Reported(config, uuid))
    {
      if a.readFails { return None; }
      return Some(if uuid in config.reported then config.reported[uuid] else []);
    }

    method SetReplicasetRoles(uuid: string, roles: seq<string>, a: Answer) returns (ok: bool)
      modifies this
      ensures config == AfterEdit(old(config), Edit(uuid, roles), a) && ok == !a.editFails
    {
      config := AfterEdit(config, Edit(uuid, roles), a);
      ok := !a.editFails;
    }
  }

  /** The body of the inner loop. */
  method TreatReplicaset(t: Task, stsOrdinal: nat, a: Answer, topology: RolesTopology, allConfigured: bool)
    returns (allConfigured': bool)
    modifies topology
    ensures Pass(topology.config, allConfigured') ==
            Treat(t, Replicaset(stsOrdinal), a, Pass(old(topology.config), allConfigured))
  {
    if a.hierarchy.None? { return false; }
    var uuid := t.UuidOf(stsOrdinal);
    var actual := topology.GetReplicasetRoles(uuid, a);
    if actual.None? { return false; }
    var equal := IsVShardRolesEquals(actual.value, t.desired, a.hierarchy.value);
    if !equal {
      var ok := topology.SetReplicasetRoles(uuid, t.desired, a);
      if !ok { return false; }
    }
    return allConfigured;
  }

  method ConfigureVShardRoles(t: Task, replicasets: int32, lists: seq<J.Listing>, at: nat -> Answer,
                              topology: RolesTopology) returns (v: Verdict)
    modifies topology
    ensures var end := TreatAll(t, Stops(replicasets, lists), 0, at, Pass(old(topology.config), true));
      topology.config == end.config && v == Configured(end)
  {
    ghost var end := TreatAll(t, Stops(replicasets, lists), 0, at, Pass(topology.config, true));
    var allRolesConfigured, k := true, 0;
    var count: nat := if replicasets < 0 then 0 else replicasets;
    for stsOrdinal := 0 to count
      invariant end ==
                TreatAll(t, StopsFrom(replicasets, lists, stsOrdinal, 0), k, at,
                         Pass(topology.config, allRolesConfigured))
    {
      var list := J.ListAt(lists, stsOrdinal);
      if list.ListFails? {
        allRolesConfigured, k := false, k + 1;
        continue;
      }
      for i := 0 to |list.items|
        invariant end ==
                  TreatAll(t, StopsFrom(replicasets, lists, stsOrdinal, i), k, at,
                           Pass(topology.config, allRolesConfigured))
      {
        if list.items[i].deleting { continue; }
        allRolesConfigured := TreatReplicaset(t, stsOrdinal, at(k), topology, allRolesConfigured);
        k := k + 1;
      }
    }
    return Configured(Pass(topology.config, allRolesConfigured));
  }
}
