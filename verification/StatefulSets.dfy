/**
`syncStatefulSet`: bringing a StatefulSet in line with its role in place, field by field,
with a flag that tells whether to send it to the API server.
*/
module StatefulSets {
  import opened Basics
  import opened Labels
  import opened Maps

  // ---------------------------------------------------------------- objects

  /** A pod template: its labels, and everything else as one opaque text. */
  datatype Template = Template(labels: Option<LabelMap>, body: string)

  datatype RollingUpdate = RollingUpdate(partition: Option<int32>, maxUnavailable: Option<string>)

  datatype OwnerRef = OwnerRef(kind: string, name: string, uid: string, controller: bool)

  datatype Role = Role(
    name: string, uid: string, labels: Option<LabelMap>, annotations: Option<LabelMap>,
    replicasets: int32, replicas: int32, minReadySeconds: int32,
    strategy: string, rollingUpdate: Option<RollingUpdate>, template: Template, claims: string)

  /** What is set when a StatefulSet is created and never synced afterwards. */
  datatype Fixed = Fixed(
    serviceName: string, claims: string, podManagement: string, revisionHistoryLimit: int32,
    whenDeleted: string, whenScaled: string)

  /** The part of a StatefulSet that the operator reads or writes, as a value. */
  datatype Value = Value(
    name: string, selector: LabelMap, fixed: Fixed,
    labels: Option<LabelMap>, annotations: Option<LabelMap>, owners: seq<OwnerRef>,
    replicas: int32, minReadySeconds: int32, strategy: string, rollingUpdate: Option<RollingUpdate>, template: Template)

  /** How the operator labels, hashes and identifies: `HashObject` and UUIDv5 are parameters. */
  datatype Operator = Operator(ns: string, hash: Template -> Option<string>, uuidOf: string -> string)

  const ON_DELETE := "OnDelete"
  const ROLLING_UPDATE := "RollingUpdate"

  // ---------------------------------------------------------------- taking control

  const ROLE_KIND := "Role.tarantool.io"

  function RefTo(role: Role): OwnerRef { OwnerRef(ROLE_KIND, role.name, role.uid, true) }

  /** Owner references are compared by kind and name. */
  predicate SameObject(a: OwnerRef, b: OwnerRef) { a.kind == b.kind && a.name == b.name }

  /** The first reference marked as the controller. */
  function Controller(owners: seq<OwnerRef>): Option<OwnerRef> {
    if |owners| == 0 then None else if owners[0].controller then Some(owners[0]) else Controller(owners[1..])
  }

  predicate ControlledBy(owners: seq<OwnerRef>, role: Role) {
    Controller(owners).Some? && Controller(owners).value.uid == role.uid
  }

  function Upsert(owners: seq<OwnerRef>, ref: OwnerRef): seq<OwnerRef> {
    if |owners| == 0 then [ref]
    else if SameObject(owners[0], ref) then [ref] + owners[1..]
    else [owners[0]] + Upsert(owners[1..], ref)
  }

  /** `ControlObject`: keep control, take it, or fail because another object has it. */
  function Controlled(owners: seq<OwnerRef>, role: Role): Option<seq<OwnerRef>> {
    var present := Controller(owners);
    if ControlledBy(owners, role) then Some(owners)
    else if present.Some? && !SameObject(present.value, RefTo(role)) then None
    else Some(Upsert(owners, RefTo(role)))
  }

  lemma {:induction false} UpsertControls(owners: seq<OwnerRef>, ref: OwnerRef)
    requires ref.controller && (Controller(owners).None? || SameObject(Controller(owners).value, ref))
    ensures Controller(Upsert(owners, ref)) == Some(ref)
  {
    if |owners| == 0 || SameObject(owners[0], ref) {
    } else {
      UpsertControls(owners[1..], ref);
    }
  }

  /**
  Whoever asks for control and does not fail has it, and the references change exactly if it did
  not have it before.
  */
  lemma ControlIsTaken(owners: seq<OwnerRef>, role: Role)
    requires Controlled(owners, role).Some?
    ensures ControlledBy(Controlled(owners, role).value, role)
    ensures Controlled(owners, role).value != owners <==> !ControlledBy(owners, role)
  {
    if !ControlledBy(owners, role) {
      UpsertControls(owners, RefTo(role));
    }
  }

  predicate IsReferenceTo(o: OwnerRef, role: Role) { o.kind == ROLE_KIND && o.name == role.name }

  /** The role's reference stands at position i, in place of its first one or at the end; the others stay. */
  ghost predicate PutAt(owners: seq<OwnerRef>, role: Role, i: nat, result: seq<OwnerRef>) {
    && i <= |owners|
    && (forall j | 0 <= j < i :: !IsReferenceTo(owners[j], role))
    && (i < |owners| ==> IsReferenceTo(owners[i], role))
    && result == owners[..i] + [OwnerRef(ROLE_KIND, role.name, role.uid, true)]
                 + (if i < |owners| then owners[i + 1..] else [])
  }

  lemma {:induction false} UpsertPuts(owners: seq<OwnerRef>, role: Role) returns (i: nat)
    ensures PutAt(owners, role, i, Upsert(owners, RefTo(role)))
  {
    if |owners| == 0 || IsReferenceTo(owners[0], role) {
      i := 0;
    } else {
      var k := UpsertPuts(owners[1..], role);
      i := k + 1;
      assert owners[..i] == [owners[0]] + owners[1..][..k];
    }
  }

  /** Taking control leaves the references to other objects where they are. */
  lemma OtherOwnersStay(owners: seq<OwnerRef>, role: Role)
    requires Controlled(owners, role).Some?
    ensures var result := Controlled(owners, role).value;
      if ControlledBy(owners, role) then result == owners else exists i: nat :: PutAt(owners, role, i, result)
  {
    if !ControlledBy(owners, role) {
      var i := UpsertPuts(owners, role);
    }
  }

  // ---------------------------------------------------------------- what a sync is to achieve

  function SetLabels(op: Operator, role: Role, id: Identity, hash: string): LabelMap {
    Merged([map[ClusterName(op.ns) := id.cluster], Entries(role.labels), SystemLabels(op.ns, id, hash)])
  }

  function PodLabels(op: Operator, role: Role, id: Identity, hash: string): LabelMap {
    Merged([Entries(role.template.labels), SetLabels(op, role, id, hash)])
  }

  function Max(a: int32, b: int32): int32 { if a < b then b else a }

  /** The StatefulSet a successful sync leaves, where `hash` is the hash of the role's pod template. */
  function Synced(op: Operator, role: Role, id: Identity, hash: string, owners: seq<OwnerRef>, v: Value): Value {
    Value(
      v.name, v.selector, v.fixed,
      Some(SetLabels(op, role, id, hash)), role.annotations, owners,
      Max(v.replicas, role.replicas), role.minReadySeconds, role.strategy,
      if role.strategy == ON_DELETE then None
      else if role.strategy == ROLLING_UPDATE then role.rollingUpdate
      else v.rollingUpdate,
      Template(Some(PodLabels(op, role, id, hash)),
               if At(v.labels, PodTemplateHash(op.ns)) == hash then v.template.body else role.template.body))
  }

  /** `syncStatefulSet` as a function; it fails if the template cannot be hashed or another object is in control. */
  function Sync(op: Operator, role: Role, id: Identity, v: Value): Option<Value> {
    var hash := op.hash(role.template);
    var owners := Controlled(v.owners, role);
    if hash.None? || owners.None? then None else Some(Synced(op, role, id, hash.value, owners.value, v))
  }

  // ---------------------------------------------------------------- labels the user cannot override

  lemma MergedPair(a: LabelMap, b: LabelMap)
    ensures Merged([a, b]) == a + b
  {
    assert [a, b][..1] == [a] && [a][..0] == [];
    assert Merged([a]) == a;
  }

  lemma MergedTriple(a: LabelMap, b: LabelMap, c: LabelMap)
    ensures Merged([a, b, c]) == a + b + c
  {
    assert [a, b, c][..2] == [a, b];
    MergedPair(a, b);
  }

  /** The operator's labels are in the StatefulSet's labels and in the pod template's, whatever the role says. */
  lemma SystemLabelsPrevail(op: Operator, role: Role, id: Identity, hash: string)
    ensures Identifies(op.ns, id, SetLabels(op, role, id, hash)) && Identifies(op.ns, id, PodLabels(op, role, id, hash))
    ensures At(Some(SetLabels(op, role, id, hash)), PodTemplateHash(op.ns)) == hash
    ensures Matches(SetLabels(op, role, id, hash), PodLabels(op, role, id, hash))
  {
    var system := SystemLabels(op.ns, id, hash);
    var labels := SetLabels(op, role, id, hash);
    MergedTriple(map[ClusterName(op.ns) := id.cluster], Entries(role.labels), system);
    MergedPair(Entries(role.template.labels), labels);
    assert Matches(system, labels) && Matches(system, PodLabels(op, role, id, hash));
    SystemLabelsIdentify(op.ns, id, hash, labels);
    SystemLabelsIdentify(op.ns, id, hash, PodLabels(op, role, id, hash));
  }

  // ---------------------------------------------------------------- what a sync achieves, field by field

  /** The keys the operator owns. */
  predicate IsSystemKey(ns: string, k: string) {
    || k == ClusterName(ns) || k == RoleName(ns) || k == Labels.ReplicasetName(ns)
    || k == ReplicasetUUID(ns) || k == ReplicasetOrdinal(ns) || k == PodTemplateHash(ns)
  }

  /** Labels of the user survive unless the operator owns the key, and nothing else is added. */
  ghost predicate KeepsUserLabels(ns: string, user: LabelMap, result: LabelMap) {
    && (forall k | k in result :: IsSystemKey(ns, k) || (k in user && result[k] == user[k]))
    && (forall k | k in user && !IsSystemKey(ns, k) :: k in result && result[k] == user[k])
  }

  /** The StatefulSet's labels are the role's, apart from those the operator owns. */
  lemma RoleLabelsSurvive(op: Operator, role: Role, id: Identity, hash: string)
    ensures KeepsUserLabels(op.ns, Entries(role.labels), SetLabels(op, role, id, hash))
  {
    MergedTriple(map[ClusterName(op.ns) := id.cluster], Entries(role.labels), SystemLabels(op.ns, id, hash));
  }

  /**
  The pod template's labels are its own in the role, and for the rest those of the StatefulSet,
  which take precedence.
  */
  lemma TemplateLabelsSurvive(op: Operator, role: Role, id: Identity, hash: string)
    ensures var labels := PodLabels(op, role, id, hash);
      var own := Entries(role.template.labels);
      var whole := SetLabels(op, role, id, hash);
      && (forall k | k in labels :: k in whole || (k in own && labels[k] == own[k]))
      && (forall k | k in own && k !in whole :: k in labels && labels[k] == own[k])
      && Matches(whole, labels)
  {
    MergedPair(Entries(role.template.labels), SetLabels(op, role, id, hash));
  }

  /** The replicas are enough for the role, never fewer than before, and not more than either. */
  predicate ScaledUp(role: Role, v: Value, w: Value) {
    w.replicas >= role.replicas && w.replicas >= v.replicas && (w.replicas == role.replicas || w.replicas == v.replicas)
  }

  /** Rolling-update settings exist only under the strategy they are for; of other strategies they are left alone. */
  predicate StrategySet(role: Role, v: Value, w: Value) {
    && w.strategy == role.strategy
    && (w.strategy == "OnDelete" ==> w.rollingUpdate == None)
    && (w.strategy == "RollingUpdate" ==> w.rollingUpdate == role.rollingUpdate)
    && (w.strategy != "OnDelete" && w.strategy != "RollingUpdate" ==> w.rollingUpdate == v.rollingUpdate)
  }

  /**
  A successful sync, field by field: scaled up to the role, its timing, strategy and
  annotations taken over, under its control, the template refreshed exactly if the hash in
  the label is another one, and everything else as it was.
  */
  lemma SyncByField(op: Operator, role: Role, id: Identity, v: Value)
    requires Sync(op, role, id, v).Some?
    ensures var w := Sync(op, role, id, v).value;
      && op.hash(role.template).Some?
      && ScaledUp(role, v, w) && StrategySet(role, v, w)
      && w.minReadySeconds == role.minReadySeconds && w.annotations == role.annotations
      && ControlledBy(w.owners, role)
      && w.template.body ==
          (if At(v.labels, PodTemplateHash(op.ns)) == op.hash(role.template).value then v.template.body
                             else role.template.body)
      && At(w.labels, PodTemplateHash(op.ns)) == op.hash(role.template).value
      && w.name == v.name && w.selector == v.selector && w.fixed == v.fixed
  {
    ControlIsTaken(v.owners, role);
    SystemLabelsPrevail(op, role, id, op.hash(role.template).value);
  }

  /** A reference of another object that is marked as the controller before any other. */
  ghost predicate ControlledByOther(owners: seq<OwnerRef>, role: Role) {
    exists i :: 0 <= i < |owners| && FirstController(owners, i) && owners[i].uid != role.uid
                && (owners[i].kind != ROLE_KIND || owners[i].name != role.name)
  }

  ghost predicate FirstController(owners: seq<OwnerRef>, i: nat) {
    i < |owners| && owners[i].controller && forall j | 0 <= j < i :: !owners[j].controller
  }

  lemma {:induction false} ControllerIsFirst(owners: seq<OwnerRef>, i: nat)
    requires FirstController(owners, i)
    ensures Controller(owners) == Some(owners[i])
  {
    if i == 0 {
    } else {
      assert !owners[0].controller;
      assert FirstController(owners[1..], i - 1);
      ControllerIsFirst(owners[1..], i - 1);
    }
  }

  lemma {:induction false} ControllerIsSomewhere(owners: seq<OwnerRef>)
    requires Controller(owners).Some?
    ensures exists i: nat :: FirstController(owners, i)
  {
    if owners[0].controller {
      assert FirstController(owners, 0);
    } else {
      ControllerIsSomewhere(owners[1..]);
      var i: nat :| FirstController(owners[1..], i);
      assert FirstController(owners, i + 1);
    }
  }

  /** A sync fails exactly if the template cannot be hashed or another object is in control. */
  lemma SyncFailsIff(op: Operator, role: Role, id: Identity, v: Value)
    ensures Sync(op, role, id, v).None? <==> op.hash(role.template).None? || ControlledByOther(v.owners, role)
  {
    if Controller(v.owners).Some? {
      ControllerIsSomewhere(v.owners);
      var i: nat :| FirstController(v.owners, i);
      ControllerIsFirst(v.owners, i);
    }
    if i :| 0 <= i < |v.owners| && FirstController(v.owners, i) && v.owners[i].uid != role.uid
            && (v.owners[i].kind != ROLE_KIND || v.owners[i].name != role.name) {
      ControllerIsFirst(v.owners, i);
    }
  }

  // ---------------------------------------------------------------- convergence

  /** The label says which template the body is of, so the second time the body is kept. */
  lemma SyncedTwice(op: Operator, role: Role, id: Identity, hash: string, owners: seq<OwnerRef>, v: Value)
    requires At(Some(SetLabels(op, role, id, hash)), PodTemplateHash(op.ns)) == hash
    ensures var w := Synced(op, role, id, hash, owners, v); Synced(op, role, id, hash, owners, w) == w
  {}

  /** A second sync with the same role finds nothing to do. */
  lemma SyncConverges(op: Operator, role: Role, id: Identity, v: Value)
    requires Sync(op, role, id, v).Some?
    ensures Sync(op, role, id, Sync(op, role, id, v).value) == Sync(op, role, id, v)
  {
    var hash := op.hash(role.template).value;
    var owners := Controlled(v.owners, role).value;
    ControlIsTaken(v.owners, role);
    assert At(Some(SetLabels(op, role, id, hash)), PodTemplateHash(op.ns)) == hash by {
      SystemLabelsPrevail(op, role, id, hash);
    }
    SyncedTwice(op, role, id, hash, owners, v);
  }

  /** A StatefulSet in the course of its life: each sync uses the role as edited by then; failed ones leave it. */
  function Life(op: Operator, roles: seq<Role>, id: Identity, v: Value): Value {
    if |roles| == 0 then v
    else
      var before := Life(op, roles[..|roles| - 1], id, v);
      var after := Sync(op, roles[|roles| - 1], id, before);
      if after.Some? then after.value else before
  }

  /** The k-th sync of this life succeeds. */
  ghost predicate Succeeds(op: Operator, roles: seq<Role>, id: Identity, v: Value, k: nat) {
    k < |roles| && Sync(op, roles[k], id, Life(op, roles[..k], id, v)).Some?
  }

  lemma SucceedsBefore(op: Operator, roles: seq<Role>, id: Identity, v: Value, k: nat)
    requires |roles| > 0 && k < |roles| - 1
    ensures Succeeds(op, roles, id, v, k) <==> Succeeds(op, roles[..|roles| - 1], id, v, k)
  {
    assert roles[..|roles| - 1][..k] == roles[..k];
  }

  /** The number is the first one or that of a role whose sync succeeded. */
  ghost predicate AskedFor(op: Operator, roles: seq<Role>, id: Identity, v: Value, n: int) {
    n == v.replicas || exists k: nat :: Succeeds(op, roles, id, v, k) && roles[k].replicas == n
  }

  lemma OneMoreAsks(op: Operator, roles: seq<Role>, id: Identity, v: Value, n: int)
    requires |roles| > 0
    ensures var most, last := roles[..|roles| - 1], |roles| - 1;
      AskedFor(op, roles, id, v, n) <==>
      AskedFor(op, most, id, v, n) || (Succeeds(op, roles, id, v, last) && n == roles[last].replicas)
  {
    var most, last := roles[..|roles| - 1], |roles| - 1;
    if k: nat :| Succeeds(op, roles, id, v, k) && roles[k].replicas == n {
      if k < last { SucceedsBefore(op, roles, id, v, k); }
    }
    if k: nat :| Succeeds(op, most, id, v, k) && most[k].replicas == n {
      SucceedsBefore(op, roles, id, v, k);
    }
  }

  /**
  Over any life the replicas are the largest number ever asked for, by the object as it was
  first and by the roles whose sync succeeded.
  */
  lemma {:induction false} ReplicasAreTheMostAskedFor(op: Operator, roles: seq<Role>, id: Identity, v: Value)
    ensures AskedFor(op, roles, id, v, Life(op, roles, id, v).replicas)
    ensures forall n | AskedFor(op, roles, id, v, n) :: n <= Life(op, roles, id, v).replicas
  {
    if |roles| == 0 {
    } else {
      var most, last := roles[..|roles| - 1], |roles| - 1;
      ReplicasAreTheMostAskedFor(op, most, id, v);
      var before, after := Life(op, most, id, v), Sync(op, roles[last], id, Life(op, most, id, v));
      if after.Some? { SyncByField(op, roles[last], id, before); }
      assert Succeeds(op, roles, id, v, last) <==> after.Some?;
      forall n
        ensures AskedFor(op, roles, id, v, n) <==>
          AskedFor(op, most, id, v, n) || (after.Some? && n == roles[last].replicas)
      {
        OneMoreAsks(op, roles, id, v, n);
      }
    }
  }

  /** Hence they never decrease. */
  lemma ReplicasNeverDecrease(op: Operator, roles: seq<Role>, id: Identity, v: Value, k: nat)
    requires k <= |roles|
    ensures Life(op, roles[..k], id, v).replicas <= Life(op, roles, id, v).replicas
  {
    var early := roles[..k];
    var n := Life(op, early, id, v).replicas;
    ReplicasAreTheMostAskedFor(op, early, id, v);
    ReplicasAreTheMostAskedFor(op, roles, id, v);
    if i: nat :| Succeeds(op, early, id, v, i) && early[i].replicas == n {
      assert early[..i] == roles[..i];
      assert Succeeds(op, roles, id, v, i);
    }
    assert AskedFor(op, roles, id, v, n);
  }

  // ---------------------------------------------------------------- the hash stands in for a comparison

  /** The naive form: copy the template every time. */
  function CopiedTemplate(op: Operator, role: Role, id: Identity, hash: string): Template {
    Template(Some(PodLabels(op, role, id, hash)), role.template.body)
  }

  /** Templates with the same hash have the same body, and no hash is what an absent label reads as. */
  ghost predicate CollisionFree(hash: Template -> Option<string>) {
    && (forall s, t | hash(s).Some? && hash(s) == hash(t) :: s.body == t.body)
    && (forall t | hash(t) == Some("") :: t.body == "")
  }

  /** A StatefulSet as `createStatefulSet` first assembles it, with an empty template and no labels. */
  function Blank(name: string, selector: LabelMap, fixed: Fixed, replicas: int32): Value {
    Value(name, selector, fixed, Some(map[]), None, [], replicas, 0, "", None, Template(None, ""))
  }

  /** The template's body is that of some template the hash label was made of. */
  ghost predicate HashTells(op: Operator, v: Value) {
    || (At(v.labels, PodTemplateHash(op.ns)) == "" && v.template.body == "")
    || exists t :: op.hash(t) == Some(At(v.labels, PodTemplateHash(op.ns))) && t.body == v.template.body
  }

  lemma SyncKeepsHash(op: Operator, role: Role, id: Identity, v: Value)
    requires CollisionFree(op.hash) && HashTells(op, v) && Sync(op, role, id, v).Some?
    ensures HashTells(op, Sync(op, role, id, v).value)
    ensures Sync(op, role, id, v).value.template == CopiedTemplate(op, role, id, op.hash(role.template).value)
  {
    var hash := op.hash(role.template).value;
    SystemLabelsPrevail(op, role, id, hash);
    assert Sync(op, role, id, v).value.template.body == role.template.body;
  }

  lemma {:induction false} LifeKeepsHash(op: Operator, roles: seq<Role>, id: Identity, v: Value)
    requires CollisionFree(op.hash) && HashTells(op, v)
    ensures HashTells(op, Life(op, roles, id, v))
  {
    if |roles| == 0 {
    } else {
      var before := Life(op, roles[..|roles| - 1], id, v);
      LifeKeepsHash(op, roles[..|roles| - 1], id, v);
      if Sync(op, roles[|roles| - 1], id, before).Some? { SyncKeepsHash(op, roles[|roles| - 1], id, before); }
    }
  }

  /** After any life, the next sync leaves what copying the template would. */
  ghost predicate RefinesCopying(op: Operator) {
    forall roles: seq<Role>, role: Role, id: Identity, v: Value |
      HashTellsAtBirth(v) && Sync(op, role, id, Life(op, roles, id, v)).Some? ::
      Sync(op, role, id, Life(op, roles, id, v)).value.template ==
          CopiedTemplate(op, role, id, op.hash(role.template).value)
  }

  ghost predicate HashTellsAtBirth(v: Value) { v == Blank(v.name, v.selector, v.fixed, v.replicas) }

  /**
  Comparing hashes refines copying the template every time, for every sequence of role
  edits and syncs, exactly when the hash is collision free.
  */
  lemma HashRefinesCopyingIff(op: Operator)
    ensures RefinesCopying(op) <==> CollisionFree(op.hash)
  {
    if CollisionFree(op.hash) {
      forall roles: seq<Role>, role: Role, id: Identity, v: Value |
        HashTellsAtBirth(v) && Sync(op, role, id, Life(op, roles, id, v)).Some?
        ensures Sync(op, role, id, Life(op, roles, id, v)).value.template ==
                CopiedTemplate(op, role, id, op.hash(role.template).value)
      {
        LifeKeepsHash(op, roles, id, v);
        SyncKeepsHash(op, role, id, Life(op, roles, id, v));
      }
    }
    if RefinesCopying(op) {
      CopyingNeedsDistinctHashes(op);
      CopyingNeedsHashes(op);
    }
  }

  function RoleWith(t: Template): Role { Role("r", "1", None, None, 1, 1, 0, "", None, t, "") }

  lemma CopyingNeedsHashes(op: Operator)
    requires RefinesCopying(op)
    ensures forall t | op.hash(t) == Some("") :: t.body == ""
  {
    forall t | op.hash(t) == Some("")
      ensures t.body == ""
    {
      var id := Identity("c", "r", "r-0", "u", 0);
      var v := Blank("r-0", map[], Fixed("c", "", "", 1, "", ""), 1);
      assert Life(op, [], id, v) == v;
      assert HashTellsAtBirth(v);
      assert Sync(op, RoleWith(t), id, Life(op, [], id, v)).Some?;
    }
  }

  lemma CopyingNeedsDistinctHashes(op: Operator)
    requires RefinesCopying(op)
    ensures forall s, t | op.hash(s).Some? && op.hash(s) == op.hash(t) :: s.body == t.body
  {
    forall s, t | op.hash(s).Some? && op.hash(s) == op.hash(t)
      ensures s.body == t.body
    {
      var id := Identity("c", "r", "r-0", "u", 0);
      var v := Blank("r-0", map[], Fixed("c", "", "", 1, "", ""), 1);
      assert HashTellsAtBirth(v);
      FirstSync(op, RoleWith(s), id, v);
      var first := Life(op, [RoleWith(s)], id, v);
      assert Sync(op, RoleWith(s), id, Life(op, [], id, v)).Some?;
      assert first.template.body == s.body;
      SystemLabelsPrevail(op, RoleWith(s), id, op.hash(s).value);
      ControlIsTaken(v.owners, RoleWith(s));
      assert ControlledBy(first.owners, RoleWith(t));
      assert Sync(op, RoleWith(t), id, first).Some?;
      assert Sync(op, RoleWith(t), id, first).value.template.body == t.body;
    }
  }

  lemma FirstSync(op: Operator, role: Role, id: Identity, v: Value)
    requires op.hash(role.template).Some? && v.owners == []
    ensures Life(op, [], id, v) == v && Sync(op, role, id, v).Some?
            && Life(op, [role], id, v) == Sync(op, role, id, v).value
  {
    assert [role][..0] == [];
  }

  // ---------------------------------------------------------------- a hash of fixed width

  /** Templates that differ in length. */
  function Sized(n: nat): Template { Template(None, seq(n, _ => 'x')) }

  ghost function HashesBelow(hash: Template -> Option<string>, n: nat): set<string>
    requires forall t :: hash(t).Some?
  {
    set i | 0 <= i < n :: hash(Sized(i)).value
  }

  lemma {:induction false} DistinctHashesAreMany(hash: Template -> Option<string>, n: nat)
    requires (forall t :: hash(t).Some?) && CollisionFree(hash)
    ensures |HashesBelow(hash, n)| == n
  {
    if n == 0 {
    } else {
      DistinctHashesAreMany(hash, n - 1);
      var last := hash(Sized(n - 1)).value;
      assert last !in HashesBelow(hash, n - 1) by {
        forall i | 0 <= i < n - 1
          ensures hash(Sized(i)).value != last
        {
          assert |Sized(i).body| != |Sized(n - 1).body|;
        }
      }
      assert HashesBelow(hash, n) == HashesBelow(hash, n - 1) + {last};
    }
  }

  lemma SubsetIsSmaller<T>(a: set<T>, b: set<T>)
    requires a <= b
    ensures |a| <= |b|
  {
    assert b == a + (b - a);
  }

  /** A hash with finitely many values, such as the 32-bit one in use, misses some edit of a template. */
  lemma FiniteHashMissesAnEdit(op: Operator, values: set<string>)
    requires forall t :: op.hash(t).Some? && op.hash(t).value in values
    ensures !RefinesCopying(op)
  {
    if CollisionFree(op.hash) {
      DistinctHashesAreMany(op.hash, |values| + 1);
      assert HashesBelow(op.hash, |values| + 1) <= values;
      SubsetIsSmaller(HashesBelow(op.hash, |values| + 1), values);
    }
    HashRefinesCopyingIff(op);
  }

  // ---------------------------------------------------------------- the operator's code

  class StatefulSet {
    const name: string
    const selector: LabelMap
    const fixed: Fixed
    var labels: Option<LabelMap>
    var annotations: Option<LabelMap>
    var owners: seq<OwnerRef>
    var replicas: int32
    var minReadySeconds: int32
    var strategy: string
    var rollingUpdate: Option<RollingUpdate>
    var template: Template

    constructor (v: Value)
      ensures AsValue() == v
    {
      name, selector, fixed := v.name, v.selector, v.fixed;
      labels, annotations, owners := v.labels, v.annotations, v.owners;
      replicas, minReadySeconds, strategy := v.replicas, v.minReadySeconds, v.strategy;
      rollingUpdate, template := v.rollingUpdate, v.template;
    }

    function AsValue(): Value
      reads this
    {
      Value(name, selector, fixed, labels, annotations, owners, replicas, minReadySeconds, strategy, rollingUpdate,
            template)
    }

    method ControlObject(role: Role) returns (r: Option<bool>)
      modifies this`owners
      ensures r.None? <==> Controlled(old(owners), role).None?
      ensures owners == if r.Some? then Controlled(old(owners), role).value else old(owners)
      ensures r.Some? ==> r.value == !ControlledBy(old(owners), role)
    {
      if ControlledBy(owners, role) { return Some(false); }
      var present := Controller(owners);
      if present.Some? && !SameObject(present.value, RefTo(role)) { return None; }
      owners := Upsert(owners, RefTo(role));
      return Some(true);
    }

    method SyncSpec(role: Role) returns (changed: bool)
      modifies this`replicas, this`minReadySeconds, this`strategy, this`rollingUpdate
      ensures replicas == Max(old(replicas), role.replicas) && minReadySeconds == role.minReadySeconds
              && strategy == role.strategy
      ensures rollingUpdate == if role.strategy == ON_DELETE then None
                               else if role.strategy == ROLLING_UPDATE then role.rollingUpdate else old(rollingUpdate)
      ensures changed <==> AsValue() != old(AsValue())
    {
      changed := false;
      if role.replicas > replicas {
        replicas := role.replicas;
        changed := true;
      }
      if role.minReadySeconds != minReadySeconds {
        minReadySeconds := role.minReadySeconds;
        changed := true;
      }
      if role.strategy != strategy {
        strategy := role.strategy;
        changed := true;
      }
      if strategy == ON_DELETE {
        if rollingUpdate.Some? {
          rollingUpdate := None;
          changed := true;
        }
      }
      if strategy == ROLLING_UPDATE {
        if role.rollingUpdate != rollingUpdate {
          rollingUpdate := role.rollingUpdate;
          changed := true;
        }
      }
    }

    /** Template, labels and annotations. The flag is exact because the labels hold the hash. */
    method SyncMetadata(op: Operator, role: Role, hash: string, stsLabels: LabelMap, podTemplateLabels: LabelMap)
      returns (changed: bool)
      requires At(Some(stsLabels), PodTemplateHash(op.ns)) == hash
      modifies this`labels, this`template, this`annotations
      ensures labels == Some(stsLabels) && annotations == role.annotations
      ensures template.labels == Some(podTemplateLabels)
      ensures template.body == if At(old(labels), PodTemplateHash(op.ns)) == hash then old(template).body
              else role.template.body
      ensures changed <==> AsValue() != old(AsValue())
    {
      changed := false;
      if hash != At(labels, PodTemplateHash(op.ns)) {
        template := role.template;
        changed := true;
      }
      if Some(stsLabels) != labels {
        labels := Some(stsLabels);
        changed := true;
      }
      if Some(podTemplateLabels) != template.labels {
        template := template.(labels := Some(podTemplateLabels));
        changed := true;
      }
      if role.annotations != annotations {
        annotations := role.annotations;
        changed := true;
      }
    }

    /**
    `syncStatefulSet`. On failure nothing changed and the flag is false; otherwise the flag
    is true exactly when the object differs, nil and empty maps told apart.
    */
    method SyncStatefulSet(op: Operator, cluster: string, role: Role, ordinal: int32, uuid: string)
      returns (changed: bool, ok: bool)
      modifies this
      ensures var id := Identity(cluster, role.name, name, uuid, ordinal);
        && (ok <==> Sync(op, role, id, old(AsValue())).Some?)
        && AsValue() == if ok then Sync(op, role, id, old(AsValue())).value else old(AsValue())
      ensures changed <==> AsValue() != old(AsValue())
    {
      var hash := op.hash(role.template);
      if hash.None? { return false, false; }

      var id := Identity(cluster, role.name, name, uuid, ordinal);
      var clusterLabels := map[ClusterName(op.ns) := cluster];
      var stsLabels := MergeMaps([clusterLabels, Entries(role.labels), SystemLabels(op.ns, id, hash.value)]);
      var podTemplateLabels := MergeMaps([Entries(role.template.labels), stsLabels]);
      assert At(Some(stsLabels), PodTemplateHash(op.ns)) == hash.value by {
        SystemLabelsPrevail(op, role, id, hash.value);
      }

      var control := ControlObject(role);
      if control.None? { return false, false; }
      ControlIsTaken(old(owners), role);

      var specChanged := SyncSpec(role);
      var metadataChanged := SyncMetadata(op, role, hash.value, stsLabels, podTemplateLabels);
      return control.value || specChanged || metadataChanged, true;
    }
  }
}
