/**
`ReplicasetsManger`: creating the StatefulSets of a role, updating them, and finding them
again by the operator's labels, whatever labels the user puts on the role or its template.
*/
module Replicasets {
  import opened Basics
  import opened Labels
  import opened StatefulSets
  import Joining
  import Names

  // ---------------------------------------------------------------- who a StatefulSet is

  /** `GetReplicasetUUID`: the UUID of the seed `role-ordinal`. */
  function UuidOf(op: Operator, role: string, ordinal: int32): string {
    op.uuidOf(Names.Dashed(role, ordinal))
  }

  function IdOf(op: Operator, cluster: string, role: string, ordinal: int32): Identity {
    Identity(cluster, role, Names.ReplicasetName(role, ordinal), UuidOf(op, role, ordinal), ordinal)
  }

  /** The immutable selector of a StatefulSet. */
  function SpecSelector(ns: string, id: Identity): LabelMap {
    map[ClusterName(ns) := id.cluster,
        RoleName(ns) := id.role,
        Labels.ReplicasetName(ns) := id.name,
        ReplicasetUUID(ns) := id.uuid]
  }

  /** What stays as it was created. */
  function FixedOf(cluster: string, role: Role): Fixed {
    Fixed(cluster, role.claims, "Parallel", 1, "Retain", "Retain")
  }

  /** `createStatefulSet` before the call to the API server. */
  function NewSet(op: Operator, cluster: string, role: Role, ordinal: int32): Option<Value> {
    var id := IdOf(op, cluster, role.name, ordinal);
    Sync(op, role, id, Blank(id.name, SpecSelector(op.ns, id), FixedOf(cluster, role), role.replicas))
  }

  // ---------------------------------------------------------------- the API server

  /** The StatefulSets of the namespace by name. */
  type Sets = map<string, Value>

  predicate Selected(v: Value, selector: LabelMap) { Matches(selector, Entries(v.labels)) }

  /** A list call: it fails, with not-found or otherwise, or shows what has reached the cache. */
  datatype ListAnswer = NotFound | ListError | Shows(visible: set<string>)

  /** A write: it goes through, or fails and may have been applied all the same. */
  datatype WriteAnswer = Done | Lost(applied: bool)

  predicate Finds(sets: Sets, selector: LabelMap, a: ListAnswer) {
    a.Shows? && exists n | n in sets :: n in a.visible && Selected(sets[n], selector)
  }

  datatype CreateAnswer = CreateAnswer(list: ListAnswer, write: WriteAnswer)

  /** The call that stores a new object; a name that is taken is refused. */
  function Stored(sets: Sets, v: Value, a: WriteAnswer): (Sets, bool) {
    if v.name in sets then (sets, false)
    else (if a.Done? || a.applied then sets[v.name := v] else sets, a.Done?)
  }

  /** One iteration of `CreateStatefulSets`. */
  function CreateOne(op: Operator, cluster: string, role: Role, o: int32, a: CreateAnswer, sets: Sets): (Sets, bool) {
    if Finds(sets, SelectorByReplicasetOrdinal(op.ns, role.name, role.labels, o), a.list) then (sets, true)
    else if a.list.ListError? then (sets, false)
    else
      var v := NewSet(op, cluster, role, o);
      if v.None? then (sets, false) else Stored(sets, v.value, a.write)
  }

  function CreateFrom(op: Operator, cluster: string, role: Role, o: int32, at: nat -> CreateAnswer,
                      sets: Sets): (Sets, bool)
    requires o >= 0
    decreases role.replicasets - o
  {
    if o >= role.replicasets then (sets, true)
    else
      var (sets', ok) := CreateOne(op, cluster, role, o, at(o), sets);
      if ok then CreateFrom(op, cluster, role, o + 1, at, sets') else (sets', false)
  }

  // ---------------------------------------------------------------- coherence

  /** An identity the operator could have given. */
  predicate Proper(op: Operator, id: Identity) {
    id.ordinal >= 0 && id == IdOf(op, id.cluster, id.role, id.ordinal)
  }

  /** The StatefulSet carries this identity in its labels, its pod template and its selector. */
  predicate Carries(op: Operator, v: Value, id: Identity) {
    && v.name == id.name
    && v.labels.Some? && Identifies(op.ns, id, v.labels.value)
    && v.template.labels.Some? && Identifies(op.ns, id, v.template.labels.value)
    && v.selector == SpecSelector(op.ns, id)
  }

  ghost predicate Known(op: Operator, v: Value) { exists id :: Proper(op, id) && Carries(op, v, id) }

  /** The object carries the operator's cluster label. Other people's StatefulSets do not. */
  predicate Ours(op: Operator, v: Value) { ClusterName(op.ns) in Entries(v.labels) }

  /**
  Every StatefulSet with the operator's cluster label carries an identity the operator gave it;
  of others nothing is asked.
  */
  ghost predicate Coherent(op: Operator, sets: Sets) {
    forall n | n in sets :: sets[n].name == n && (Ours(op, sets[n]) ==> Known(op, sets[n]))
  }

  /** Nothing that was stored is lost or altered. */
  ghost predicate Extends(sets: Sets, sets': Sets) { forall n | n in sets :: n in sets' && sets'[n] == sets[n] }

  /**
  Nothing that was stored is lost, changes what is fixed, or changes hands; other people's
  objects stay as they are.
  */
  ghost predicate Keeps(op: Operator, sets: Sets, sets': Sets) {
    forall n | n in sets :: n in sets' && KeepsOne(op, sets[n], sets'[n])
  }

  ghost predicate KeepsOne(op: Operator, v: Value, w: Value) {
    && w.name == v.name && w.selector == v.selector && w.fixed == v.fixed
    && (if Ours(op, v) then Ours(op, w) else w == v)
  }

  /** `GetClusterByLabels` found this cluster by the role's own label. */
  predicate IsOf(op: Operator, role: Role, cluster: string) { At(role.labels, ClusterName(op.ns)) == cluster }

  lemma SyncCarries(op: Operator, role: Role, id: Identity, v: Value)
    requires v.name == id.name && v.selector == SpecSelector(op.ns, id) && Sync(op, role, id, v).Some?
    ensures Carries(op, Sync(op, role, id, v).value, id)
  {
    SystemLabelsPrevail(op, role, id, op.hash(role.template).value);
  }

  lemma NewSetCarries(op: Operator, cluster: string, role: Role, o: int32)
    requires o >= 0 && NewSet(op, cluster, role, o).Some?
    ensures Proper(op, IdOf(op, cluster, role.name, o))
    ensures Carries(op, NewSet(op, cluster, role, o).value, IdOf(op, cluster, role.name, o))
  {
    var id := IdOf(op, cluster, role.name, o);
    SyncCarries(op, role, id, Blank(id.name, SpecSelector(op.ns, id), FixedOf(cluster, role), role.replicas));
  }

  /** The selector names cluster, role, replicaset and UUID, and nothing else: not the ordinal, not the hash. */
  ghost predicate SelectsItself(op: Operator, cluster: string, role: Role, o: int32, selector: LabelMap) {
    && selector.Keys == {ClusterName(op.ns), RoleName(op.ns), Labels.ReplicasetName(op.ns), ReplicasetUUID(op.ns)}
    && selector[ClusterName(op.ns)] == cluster && selector[RoleName(op.ns)] == role.name
    && selector[Labels.ReplicasetName(op.ns)] == Names.ReplicasetName(role.name, o)
    && selector[ReplicasetUUID(op.ns)] == UuidOf(op, role.name, o)
  }

  /**
  A new StatefulSet is the role's own, has the number of replicas it asks for, and what stays
  fixed as it is to be.
  */
  lemma NewSetIsAsAsked(op: Operator, cluster: string, role: Role, o: int32)
    ensures NewSet(op, cluster, role, o).Some? <==> op.hash(role.template).Some?
    ensures NewSet(op, cluster, role, o).Some? ==>
      var v := NewSet(op, cluster, role, o).value;
      && v.name == Names.ReplicasetName(role.name, o)
      && v.fixed.serviceName == cluster && v.fixed.claims == role.claims && v.fixed.podManagement == "Parallel"
      && v.fixed.revisionHistoryLimit == 1 && v.fixed.whenDeleted == "Retain" && v.fixed.whenScaled == "Retain"
      && SelectsItself(op, cluster, role, o, v.selector)
      && v.replicas == role.replicas && ControlledBy(v.owners, role)
      && (CollisionFree(op.hash) ==> v.template.body == role.template.body)
  {
    var id := IdOf(op, cluster, role.name, o);
    var blank := Blank(id.name, SpecSelector(op.ns, id), FixedOf(cluster, role), role.replicas);
    if NewSet(op, cluster, role, o).Some? {
      KeysDiffer(op.ns);
      ControlIsTaken(blank.owners, role);
      if CollisionFree(op.hash) { SyncKeepsHash(op, role, id, blank); }
    }
  }

  lemma PutKeeps(op: Operator, sets: Sets, n: string, v: Value)
    requires Coherent(op, sets) && v.name == n && Known(op, v)
    ensures Coherent(op, sets[n := v])
  {}

  /** A StatefulSet that the list shows matches the selector. */
  ghost predicate Shown(sets: Sets, selector: LabelMap, a: ListAnswer) {
    a.Shows? && exists n :: n in sets && n in a.visible && Selected(sets[n], selector)
  }

  /**
  For an ordinal a StatefulSet is stored exactly if the list did not fail, or failed with
  not-found, and showed none, the template can be hashed, the name is free and the write
  arrives. The ordinal succeeds if one was shown, or if the write is answered with success.
  */
  lemma CreateOneByAnswer(op: Operator, cluster: string, role: Role, o: int32, a: CreateAnswer, sets: Sets)
    ensures var (sets', ok) := CreateOne(op, cluster, role, o, a, sets);
      var selector := SelectorByReplicasetOrdinal(op.ns, role.name, role.labels, o);
      var name := Names.ReplicasetName(role.name, o);
      var tries := !Shown(sets, selector, a.list) && a.list != ListError && op.hash(role.template).Some?
          && name !in sets;
      && (sets' == if tries && (a.write == Done || a.write == Lost(true))
                   then sets[name := NewSet(op, cluster, role, o).value] else sets)
      && (ok <==> Shown(sets, selector, a.list) || (tries && a.write == Done))
  {
    NewSetIsAsAsked(op, cluster, role, o);
  }

  lemma CreateOneExtends(op: Operator, cluster: string, role: Role, o: int32, a: CreateAnswer, sets: Sets)
    ensures Extends(sets, CreateOne(op, cluster, role, o, a, sets).0)
  {}

  lemma CreateOneIs(op: Operator, cluster: string, role: Role, o: int32, a: CreateAnswer, sets: Sets)
    ensures var (sets', _) := CreateOne(op, cluster, role, o, a, sets);
      var v := NewSet(op, cluster, role, o);
      sets' == sets || (v.Some? && sets' == sets[v.value.name := v.value])
  {}

  lemma CreateOneKeeps(op: Operator, cluster: string, role: Role, o: int32, a: CreateAnswer, sets: Sets)
    requires Coherent(op, sets) && o >= 0
    ensures Coherent(op, CreateOne(op, cluster, role, o, a, sets).0)
  {
    var v := NewSet(op, cluster, role, o);
    CreateOneIs(op, cluster, role, o, a, sets);
    if v.Some? {
      NewSetCarries(op, cluster, role, o);
      PutKeeps(op, sets, v.value.name, v.value);
    }
  }

  /** The replicaset of an ordinal is there under its own name and is found by ordinal and by role. */
  ghost predicate Present(op: Operator, role: Role, o: int32, sets: Sets) {
    && Names.ReplicasetName(role.name, o) in sets
    && var v := sets[Names.ReplicasetName(role.name, o)];
    && Selected(v, SelectorByReplicasetOrdinal(op.ns, role.name, role.labels, o))
    && Selected(v, SelectorByRoleName(op.ns, role.name, role.labels))
  }

  /**
  One identity, everywhere: a StatefulSet that the ordinal selector of a role finds is the
  one named after that role and ordinal, and its UUID label, its selector and its pod
  template all hold the UUID under which the ordinal is joined and configured.
  */
  lemma FoundByOrdinal(op: Operator, role: Role, o: int32, sets: Sets, n: string)
    requires Coherent(op, sets) && n in sets && o >= 0
    requires Selected(sets[n], SelectorByReplicasetOrdinal(op.ns, role.name, role.labels, o))
    ensures n == Names.ReplicasetName(role.name, o) && Present(op, role, o, sets)
    ensures At(sets[n].labels, ReplicasetUUID(op.ns)) == UuidOf(op, role.name, o)
    ensures At(Some(sets[n].selector), ReplicasetUUID(op.ns)) == UuidOf(op, role.name, o)
    ensures At(sets[n].template.labels, ReplicasetUUID(op.ns)) == UuidOf(op, role.name, o)
    ensures Matches(sets[n].selector, Entries(sets[n].template.labels))
  {
    var id :| Proper(op, id) && Carries(op, sets[n], id);
    SelectorsAreExact(op.ns, id, sets[n].labels.value, role.name, role.labels, o);
    SelectorContained(op, sets[n], id);
  }

  /** The selector, which can never change, is contained in the pod template's labels. */
  lemma SelectorContained(op: Operator, v: Value, id: Identity)
    requires Carries(op, v, id)
    ensures Matches(v.selector, Entries(v.template.labels))
    ensures At(Some(v.selector), ReplicasetUUID(op.ns)) == id.uuid
  {
    KeysDiffer(op.ns);
  }

  lemma CreateOnePresents(op: Operator, cluster: string, role: Role, o: int32, a: CreateAnswer, sets: Sets)
    requires Coherent(op, sets) && o >= 0 && IsOf(op, role, cluster)
    ensures var (sets', ok) := CreateOne(op, cluster, role, o, a, sets); ok ==> Present(op, role, o, sets')
  {
    var (sets', ok) := CreateOne(op, cluster, role, o, a, sets);
    var selector := SelectorByReplicasetOrdinal(op.ns, role.name, role.labels, o);
    if Finds(sets, selector, a.list) {
      var n :| n in sets && n in a.list.visible && Selected(sets[n], selector);
      FoundByOrdinal(op, role, o, sets, n);
    } else if ok {
      var id := IdOf(op, cluster, role.name, o);
      var v := NewSet(op, cluster, role, o).value;
      NewSetCarries(op, cluster, role, o);
      SelectorsAreExact(op.ns, id, v.labels.value, role.name, role.labels, o);
    }
  }

  ghost predicate AllPresent(op: Operator, role: Role, o: int32, sets: Sets) {
    forall k: int32 | o <= k < role.replicasets :: Present(op, role, k, sets)
  }

  /** Creating keeps every StatefulSet as it is, and on success leaves one for every ordinal. */
  lemma {:induction false} CreateCoversOrdinals(op: Operator, cluster: string, role: Role, o: int32,
                                                at: nat -> CreateAnswer, sets: Sets)
    requires Coherent(op, sets) && o >= 0 && IsOf(op, role, cluster)
    ensures var (sets', ok) := CreateFrom(op, cluster, role, o, at, sets);
      Coherent(op, sets') && Extends(sets, sets') && (ok ==> AllPresent(op, role, o, sets'))
    decreases role.replicasets - o
  {
    if o >= role.replicasets {
    } else {
      var (sets1, ok) := CreateOne(op, cluster, role, o, at(o), sets);
      CreateOneKeeps(op, cluster, role, o, at(o), sets);
      CreateOneExtends(op, cluster, role, o, at(o), sets);
      CreateOnePresents(op, cluster, role, o, at(o), sets);
      if ok {
        CreateCoversOrdinals(op, cluster, role, o + 1, at, sets1);
        var sets' := CreateFrom(op, cluster, role, o + 1, at, sets1).0;
        PresentStays(op, role, o, sets1, sets');
        AllFromOneMore(op, role, o, sets');
      }
    }
  }

  lemma PresentStays(op: Operator, role: Role, o: int32, sets: Sets, sets': Sets)
    requires Present(op, role, o, sets) && Extends(sets, sets')
    ensures Present(op, role, o, sets')
  {}

  lemma AllFromOneMore(op: Operator, role: Role, o: int32, sets: Sets)
    requires 0 <= o < role.replicasets && Present(op, role, o, sets)
    ensures AllPresent(op, role, o + 1, sets) ==> AllPresent(op, role, o, sets)
  {}

  /** A second run that sees the objects creates none. */
  lemma {:induction false} SecondCreateDoesNothing(op: Operator, cluster: string, role: Role, o: int32,
      at: nat -> CreateAnswer, sets: Sets)
    requires o >= 0 && AllPresent(op, role, o, sets)
    requires forall k: nat :: at(k).list.Shows? && sets.Keys <= at(k).list.visible
    ensures CreateFrom(op, cluster, role, o, at, sets) == (sets, true)
    decreases role.replicasets - o
  {
    if o >= role.replicasets {
    } else {
      assert Present(op, role, o, sets);
      assert Names.ReplicasetName(role.name, o) in at(o).list.visible;
      assert Finds(sets, SelectorByReplicasetOrdinal(op.ns, role.name, role.labels, o), at(o).list);
      SecondCreateDoesNothing(op, cluster, role, o + 1, at, sets);
    }
  }

  // ---------------------------------------------------------------- updating

  /** What a list answers: copies as the cache has them, of which the selector keeps the matching ones. */
  function Filtered(answer: seq<Value>, selector: LabelMap): seq<Value> {
    if |answer| == 0 then []
    else (if Selected(answer[0], selector) then [answer[0]] else []) + Filtered(answer[1..], selector)
  }

  /** The write that replaces an object: only on the version the copy was read from. */
  function Replaced(sets: Sets, v: Value, w: Value, a: WriteAnswer): (Sets, bool) {
    if v.name !in sets || sets[v.name] != v then (sets, false)
    else (if a.Done? || a.applied then sets[v.name := w] else sets, a.Done?)
  }

  /** The sync of a listed copy, with the ordinal read from its label. */
  function Resynced(op: Operator, cluster: string, role: Role, v: Value): Option<Value> {
    var o := Names.ParseInt32(At(v.labels, ReplicasetOrdinal(op.ns)));
    if o.None? then None
    else Sync(op, role, Identity(cluster, role.name, v.name, UuidOf(op, role.name, o.value), o.value), v)
  }

  /** One iteration of `UpdateStatefulSets`: an unchanged object is not sent. */
  function UpdateOne(op: Operator, cluster: string, role: Role, v: Value, a: WriteAnswer, sets: Sets): (Sets, bool) {
    var w := Resynced(op, cluster, role, v);
    if w.None? then (sets, false) else if w.value == v then (sets, true) else Replaced(sets, v, w.value, a)
  }

  function UpdateItems(op: Operator, cluster: string, role: Role, items: seq<Value>, k: nat, at: nat -> WriteAnswer,
                       sets: Sets): (Sets, bool)
  {
    if |items| == 0 then (sets, true)
    else
      var (sets', ok) := UpdateOne(op, cluster, role, items[0], at(k), sets);
      if ok then UpdateItems(op, cluster, role, items[1..], k + 1, at, sets') else (sets', false)
  }

  function UpdateAll(op: Operator, cluster: string, role: Role, answer: Option<seq<Value>>, at: nat -> WriteAnswer,
                     sets: Sets): (Sets, bool)
  {
    if answer.None? then (sets, false)
    else
      var items := Filtered(answer.value, SelectorByRoleName(op.ns, role.name, role.labels));
      UpdateItems(op, cluster, role, items, 0, at, sets)
  }

  ghost predicate AllSelected(items: seq<Value>, selector: LabelMap) {
    forall v | v in items :: Selected(v, selector)
  }

  lemma {:induction false} FilteredAreSelected(answer: seq<Value>, selector: LabelMap)
    ensures AllSelected(Filtered(answer, selector), selector)
  {
    if |answer| == 0 {
    } else {
      FilteredAreSelected(answer[1..], selector);
    }
  }

  /** A list keeps exactly the selected objects of the answer. */
  lemma {:induction false} FilteredIffSelected(answer: seq<Value>, selector: LabelMap)
    ensures forall v :: v in Filtered(answer, selector) <==> v in answer && Selected(v, selector)
  {
    if |answer| == 0 {
    } else {
      FilteredIffSelected(answer[1..], selector);
      assert answer == [answer[0]] + answer[1..];
    }
  }

  /**
  The ordinal read back from the label is the one that was printed, so a sync is given the
  identity the object has.
  */
  lemma IdentityReadBack(op: Operator, cluster: string, role: Role, v: Value, id: Identity)
    requires Proper(op, id) && Carries(op, v, id) && IsOf(op, role, cluster)
    requires Selected(v, SelectorByRoleName(op.ns, role.name, role.labels))
    ensures Resynced(op, cluster, role, v) == Sync(op, role, id, v)
  {
    SelectorsAreExact(op.ns, id, v.labels.value, role.name, role.labels, 0);
    Names.ParseOfPrint(id.ordinal);
    assert Names.ParseInt32(At(v.labels, ReplicasetOrdinal(op.ns))) == Some(id.ordinal);
    assert id == Identity(cluster, role.name, v.name, UuidOf(op, role.name, id.ordinal), id.ordinal);
  }

  /** A sync in the course of an update keeps who the object is, and a second one has nothing to do. */
  lemma ResyncedStaysKnown(op: Operator, cluster: string, role: Role, v: Value)
    requires Known(op, v) && IsOf(op, role, cluster) && Resynced(op, cluster, role, v).Some?
    requires Selected(v, SelectorByRoleName(op.ns, role.name, role.labels))
    ensures var w := Resynced(op, cluster, role, v).value;
      && Known(op, w) && KeepsOne(op, v, w)
      && Selected(w, SelectorByRoleName(op.ns, role.name, role.labels))
      && Resynced(op, cluster, role, w) == Some(w)
  {
    var id :| Proper(op, id) && Carries(op, v, id);
    IdentityReadBack(op, cluster, role, v, id);
    var w := Resynced(op, cluster, role, v).value;
    SyncCarries(op, role, id, v);
    SelectorsAreExact(op.ns, id, v.labels.value, role.name, role.labels, 0);
    SelectorsAreExact(op.ns, id, w.labels.value, role.name, role.labels, 0);
    IdentityReadBack(op, cluster, role, w, id);
    SyncConverges(op, role, id, v);
  }

  /** A listed object is brought in line unless its ordinal cannot be read, hashing fails, or it is another object's. */
  lemma ResyncFailsIff(op: Operator, cluster: string, role: Role, v: Value)
    ensures Resynced(op, cluster, role, v).None? <==>
      || Names.ParseInt32(At(v.labels, ReplicasetOrdinal(op.ns))).None?
      || op.hash(role.template).None? || ControlledByOther(v.owners, role)
  {
    var o := Names.ParseInt32(At(v.labels, ReplicasetOrdinal(op.ns)));
    if o.Some? {
      SyncFailsIff(op, role, Identity(cluster, role.name, v.name, UuidOf(op, role.name, o.value), o.value), v);
    }
  }

  /**
  A listed object by its circumstances: it is replaced exactly if the sync changed it, the store
  still holds the listed copy, and the write arrives; the update goes on if there was nothing
  to change or the write is answered with success.
  */
  lemma UpdateOneByAnswer(op: Operator, cluster: string, role: Role, v: Value, a: WriteAnswer, sets: Sets)
    ensures var (sets', ok) := UpdateOne(op, cluster, role, v, a, sets);
      var w := Resynced(op, cluster, role, v);
      var sends := w.Some? && w.value != v && v.name in sets && sets[v.name] == v;
      && (sets' == if sends && (a == Done || a == Lost(true)) then sets[v.name := w.value] else sets)
      && (ok <==> (sends && a == Done) || w == Some(v))
  {}

  /** Replacing an object of ours by one with the same fixed part keeps the rest. */
  lemma PutKeepsOthers(op: Operator, sets: Sets, n: string, w: Value)
    requires n in sets && KeepsOne(op, sets[n], w)
    ensures Keeps(op, sets, sets[n := w])
  {
    forall m | m in sets
      ensures KeepsOne(op, sets[m], sets[n := w][m])
    {}
  }

  lemma NothingChanges(op: Operator, sets: Sets)
    ensures Keeps(op, sets, sets)
  {}

  lemma UpdateOneKeeps(op: Operator, cluster: string, role: Role, v: Value, a: WriteAnswer, sets: Sets)
    requires Coherent(op, sets) && IsOf(op, role, cluster)
    requires Selected(v, SelectorByRoleName(op.ns, role.name, role.labels))
    ensures Coherent(op, UpdateOne(op, cluster, role, v, a, sets).0)
    ensures Keeps(op, sets, UpdateOne(op, cluster, role, v, a, sets).0)
  {
    UpdateOneByAnswer(op, cluster, role, v, a, sets);
    NothingChanges(op, sets);
    if UpdateOne(op, cluster, role, v, a, sets).0 != sets {
      ResyncedStaysKnown(op, cluster, role, v);
      PutKeeps(op, sets, v.name, Resynced(op, cluster, role, v).value);
      PutKeepsOthers(op, sets, v.name, Resynced(op, cluster, role, v).value);
    }
  }

  lemma KeepsFurther(op: Operator, a: Sets, b: Sets, c: Sets)
    requires Keeps(op, a, b) && Keeps(op, b, c)
    ensures Keeps(op, a, c)
  {
    forall n | n in a
      ensures n in c && KeepsOne(op, a[n], c[n])
    {
      assert KeepsOne(op, a[n], b[n]) && KeepsOne(op, b[n], c[n]);
    }
  }

  /** Whatever a stale cache answers, updating keeps the StatefulSets coherent. */
  lemma {:induction false} UpdateKeeps(op: Operator, cluster: string, role: Role, items: seq<Value>, k: nat,
                                       at: nat -> WriteAnswer, sets: Sets)
    requires Coherent(op, sets) && IsOf(op, role, cluster)
    requires AllSelected(items, SelectorByRoleName(op.ns, role.name, role.labels))
    ensures Coherent(op, UpdateItems(op, cluster, role, items, k, at, sets).0)
    ensures Keeps(op, sets, UpdateItems(op, cluster, role, items, k, at, sets).0)
  {
    if |items| == 0 {
    } else {
      var (sets', ok) := UpdateOne(op, cluster, role, items[0], at(k), sets);
      assert items[0] in items && forall v | v in items[1..] :: v in items;
      UpdateOneKeeps(op, cluster, role, items[0], at(k), sets);
      if ok {
        UpdateKeeps(op, cluster, role, items[1..], k + 1, at, sets');
        KeepsFurther(op, sets, sets', UpdateItems(op, cluster, role, items[1..], k + 1, at, sets').0);
      }
    }
  }

  /** A list that shows the objects as they are, each once. */
  ghost predicate Current(items: seq<Value>, sets: Sets) {
    && (forall v | v in items :: v.name in sets && sets[v.name] == v)
    && forall i, j | 0 <= i < j < |items| :: items[i].name != items[j].name
  }

  /** Every listed object is stored as a sync with the role makes it. */
  ghost predicate AllResynced(op: Operator, cluster: string, role: Role, items: seq<Value>, sets: Sets) {
    forall v | v in items :: v.name in sets && Resynced(op, cluster, role, v) == Some(sets[v.name])
  }

  lemma UpdateOneSyncs(op: Operator, cluster: string, role: Role, v: Value, a: WriteAnswer, sets: Sets)
    requires v.name in sets && sets[v.name] == v
    ensures var (sets', ok) := UpdateOne(op, cluster, role, v, a, sets);
      && sets'.Keys == sets.Keys && (forall n | n in sets && n != v.name :: sets'[n] == sets[n])
      && (ok ==> Resynced(op, cluster, role, v) == Some(sets'[v.name]))
  {}

  /** An update that succeeds on a current list has brought every listed object in line with the role. */
  lemma {:induction false} UpdateResyncs(op: Operator, cluster: string, role: Role, items: seq<Value>, k: nat,
                                         at: nat -> WriteAnswer, sets: Sets)
    requires Current(items, sets)
    ensures var (sets', ok) := UpdateItems(op, cluster, role, items, k, at, sets);
      && (ok ==> AllResynced(op, cluster, role, items, sets'))
      && (forall n | n in sets && (forall v | v in items :: v.name != n) :: n in sets' && sets'[n] == sets[n])
  {
    if |items| == 0 {
    } else {
      var v0, rest := items[0], items[1..];
      var (sets1, ok1) := UpdateOne(op, cluster, role, v0, at(k), sets);
      assert v0 in items && items == [v0] + rest;
      UpdateOneSyncs(op, cluster, role, v0, at(k), sets);
      forall v | v in rest
        ensures v.name != v0.name && v.name in sets1 && sets1[v.name] == v
      {
        var j :| 0 <= j < |rest| && rest[j] == v;
        assert items[j + 1] == v;
      }
      if ok1 {
        forall i, j | 0 <= i < j < |rest|
          ensures rest[i].name != rest[j].name
        {
          assert items[i + 1].name != items[j + 1].name;
        }
        UpdateResyncs(op, cluster, role, rest, k + 1, at, sets1);
      }
    }
  }

  /** Every stored object of the role is in the answer, as it is stored, and the answer holds no object twice. */
  ghost predicate ShowsAll(answer: seq<Value>, selector: LabelMap, sets: Sets) {
    && (forall n | n in sets && Selected(sets[n], selector) :: sets[n] in answer)
    && (forall v | v in answer :: v.name in sets && sets[v.name] == v)
    && forall i, j | 0 <= i < j < |answer| :: answer[i].name != answer[j].name
  }

  lemma {:induction false} FilteredIsCurrent(answer: seq<Value>, selector: LabelMap, sets: Sets)
    requires Current(answer, sets)
    ensures Current(Filtered(answer, selector), sets)
  {
    if |answer| == 0 {
    } else {
      var rest := answer[1..];
      assert answer == [answer[0]] + rest;
      forall i, j | 0 <= i < j < |rest|
        ensures rest[i].name != rest[j].name
      {
        assert answer[i + 1].name != answer[j + 1].name;
      }
      FilteredIsCurrent(rest, selector, sets);
      FilteredIffSelected(rest, selector);
      FirstIsNotRepeated(answer, selector);
    }
  }

  lemma FirstIsNotRepeated(answer: seq<Value>, selector: LabelMap)
    requires |answer| > 0 && forall i, j | 0 <= i < j < |answer| :: answer[i].name != answer[j].name
    ensures forall v | v in Filtered(answer[1..], selector) :: v.name != answer[0].name
  {
    FilteredIffSelected(answer[1..], selector);
    forall v | v in Filtered(answer[1..], selector)
      ensures v.name != answer[0].name
    {
      var j :| 0 <= j < |answer| - 1 && answer[1..][j] == v;
      assert answer[j + 1] == v;
    }
  }

  /**
  An update that succeeds on a list of everything brings every StatefulSet of the role in
  line: each is stored as a sync with the role makes it of what it was.
  */
  lemma UpdateBringsRoleInLine(op: Operator, cluster: string, role: Role, answer: seq<Value>, at: nat -> WriteAnswer,
                               sets: Sets)
    requires Coherent(op, sets) && ShowsAll(answer, SelectorByRoleName(op.ns, role.name, role.labels), sets)
    requires UpdateAll(op, cluster, role, Some(answer), at, sets).1
    ensures var sets' := UpdateAll(op, cluster, role, Some(answer), at, sets).0;
      forall n | n in sets && Selected(sets[n], SelectorByRoleName(op.ns, role.name, role.labels)) ::
        n in sets' && Resynced(op, cluster, role, sets[n]) == Some(sets'[n])
  {
    var selector := SelectorByRoleName(op.ns, role.name, role.labels);
    var items := Filtered(answer, selector);
    FilteredIffSelected(answer, selector);
    FilteredIsCurrent(answer, selector, sets);
    UpdateResyncs(op, cluster, role, items, 0, at, sets);
    forall n | n in sets && Selected(sets[n], selector)
      ensures sets[n] in items && sets[n].name == n
    {}
  }

  ghost predicate InLine(op: Operator, cluster: string, role: Role, items: seq<Value>) {
    forall v | v in items :: Resynced(op, cluster, role, v) == Some(v)
  }

  /** Updating again with the same role succeeds without a write, whatever would become of one. */
  lemma {:induction false} InLineMeansQuiet(op: Operator, cluster: string, role: Role, items: seq<Value>, k: nat,
                                            at: nat -> WriteAnswer, sets: Sets)
    requires InLine(op, cluster, role, items)
    ensures UpdateItems(op, cluster, role, items, k, at, sets) == (sets, true)
  {
    if |items| == 0 {
    } else {
      assert items[0] in items && forall v | v in items[1..] :: v in items;
      assert UpdateOne(op, cluster, role, items[0], at(k), sets) == (sets, true);
      InLineMeansQuiet(op, cluster, role, items[1..], k + 1, at, sets);
    }
  }

  /**
  Updating converges: after a pass that succeeded on a current list of coherent objects, a
  pass over the objects as they are then writes nothing and succeeds.
  */
  lemma SecondUpdateWritesNothing(op: Operator, cluster: string, role: Role, items: seq<Value>,
                                  at: nat -> WriteAnswer, sets: Sets, again: seq<Value>, at': nat -> WriteAnswer)
    requires Coherent(op, sets) && IsOf(op, role, cluster) && Current(items, sets)
    requires AllSelected(items, SelectorByRoleName(op.ns, role.name, role.labels))
    requires UpdateItems(op, cluster, role, items, 0, at, sets).1
    requires var sets' := UpdateItems(op, cluster, role, items, 0, at, sets).0;
      forall w | w in again :: exists v :: v in items && w.name == v.name && v.name in sets' && w == sets'[v.name]
    ensures var sets' := UpdateItems(op, cluster, role, items, 0, at, sets).0;
      UpdateItems(op, cluster, role, again, 0, at', sets') == (sets', true)
  {
    var sets' := UpdateItems(op, cluster, role, items, 0, at, sets).0;
    UpdateResyncs(op, cluster, role, items, 0, at, sets);
    forall w | w in again
      ensures Resynced(op, cluster, role, w) == Some(w)
    {
      var v :| v in items && w.name == v.name && v.name in sets' && w == sets'[v.name];
      assert Known(op, sets[v.name]);
      ResyncedStaysKnown(op, cluster, role, v);
    }
    InLineMeansQuiet(op, cluster, role, again, 0, at', sets');
  }

  // ---------------------------------------------------------------- any sequence of reconciles

  /** One call of the manager, for some role as edited by then. */
  datatype Call =
    | Create(cluster: string, role: Role, lists: nat -> CreateAnswer)
    | Update(cluster: string, role: Role, answer: Option<seq<Value>>, writes: nat -> WriteAnswer)

  function Perform(op: Operator, call: Call, sets: Sets): Sets {
    match call
    case Create(cluster, role, at) => CreateFrom(op, cluster, role, 0, at, sets).0
    case Update(cluster, role, answer, at) => UpdateAll(op, cluster, role, answer, at, sets).0
  }

  function History(op: Operator, calls: seq<Call>, sets: Sets): Sets {
    if |calls| == 0 then sets else Perform(op, calls[|calls| - 1], History(op, calls[..|calls| - 1], sets))
  }

  lemma PerformKeeps(op: Operator, call: Call, sets: Sets)
    requires Coherent(op, sets) && IsOf(op, call.role, call.cluster)
    ensures var sets' := Perform(op, call, sets);
      Coherent(op, sets') && Keeps(op, sets, sets')
  {
    match call
    case Create(cluster, role, at) => CreateCoversOrdinals(op, cluster, role, 0, at, sets);
    case Update(cluster, role, answer, at) =>
      if answer.Some? {
        var selector := SelectorByRoleName(op.ns, role.name, role.labels);
        FilteredAreSelected(answer.value, selector);
        UpdateKeeps(op, cluster, role, Filtered(answer.value, selector), 0, at, sets);
      }
  }

  /**
  Over any sequence of creations and updates, of any roles with any labels of the user, with
  failures anywhere: no StatefulSet is lost, none changes its selector, and every one keeps
  carrying its identity.
  */
  lemma {:induction false} CoherentForever(op: Operator, calls: seq<Call>, sets: Sets)
    requires Coherent(op, sets) && forall call | call in calls :: IsOf(op, call.role, call.cluster)
    ensures var sets' := History(op, calls, sets);
      Coherent(op, sets') && Keeps(op, sets, sets')
  {
    if |calls| == 0 {
    } else {
      var most := calls[..|calls| - 1];
      assert forall call | call in most :: call in calls;
      assert calls[|calls| - 1] in calls;
      CoherentForever(op, most, sets);
      PerformKeeps(op, calls[|calls| - 1], History(op, most, sets));
    }
  }

  /**
  After such a history, a StatefulSet that was ever found for an ordinal is found for it again,
  with the same UUID.
  */
  lemma FoundForever(op: Operator, calls: seq<Call>, sets: Sets, role: Role, edited: Role, o: int32)
    requires Coherent(op, sets) && forall call | call in calls :: IsOf(op, call.role, call.cluster)
    requires o >= 0 && Present(op, role, o, sets)
    requires edited.name == role.name && At(edited.labels, ClusterName(op.ns)) == At(role.labels, ClusterName(op.ns))
    ensures Present(op, edited, o, History(op, calls, sets))
    ensures var n := Names.ReplicasetName(role.name, o);
      && At(History(op, calls, sets)[n].labels, ReplicasetUUID(op.ns)) == UuidOf(op, role.name, o)
      && At(sets[n].labels, ReplicasetUUID(op.ns)) == UuidOf(op, role.name, o)
  {
    CoherentForever(op, calls, sets);
    var n := Names.ReplicasetName(role.name, o);
    var sets' := History(op, calls, sets);
    FoundByOrdinal(op, role, o, sets, n);
    var id :| Proper(op, id) && Carries(op, sets[n], id);
    var id' :| Proper(op, id') && Carries(op, sets'[n], id');
    KeysDiffer(op.ns);
    SelectorTells(op.ns, id, id');
    Names.DashedInjective(id.role, id.ordinal, id'.role, id'.ordinal);
    SelectorsAreExact(op.ns, id, sets[n].labels.value, role.name, role.labels, o);
    SelectorsAreExact(op.ns, id', sets'[n].labels.value, edited.name, edited.labels, o);
  }

  lemma SelectorTells(ns: string, a: Identity, b: Identity)
    requires SpecSelector(ns, a) == SpecSelector(ns, b)
    ensures a.cluster == b.cluster && a.role == b.role && a.name == b.name && a.uuid == b.uuid
  {
    KeysDiffer(ns);
    var s := SpecSelector(ns, a);
    var t := SpecSelector(ns, b);
    assert s[ClusterName(ns)] == a.cluster && s[RoleName(ns)] == a.role;
    assert s[Labels.ReplicasetName(ns)] == a.name && s[ReplicasetUUID(ns)] == a.uuid;
    assert t[ClusterName(ns)] == b.cluster && t[RoleName(ns)] == b.role;
    assert t[Labels.ReplicasetName(ns)] == b.name && t[ReplicasetUUID(ns)] == b.uuid;
  }

  /** With UUIDs that are injective in their seed, different replicasets have different UUIDs. */
  lemma UuidsDiffer(op: Operator, role: string, o: int32, role': string, o': int32)
    requires forall s, t | op.uuidOf(s) == op.uuidOf(t) :: s == t
    requires o >= 0 && o' >= 0 && UuidOf(op, role, o) == UuidOf(op, role', o')
    ensures role == role' && o == o'
  {
    Names.DashedInjective(role, o, role', o');
  }

  // ---------------------------------------------------------------- the operator's code

  class StatefulSetStore {
    var sets: Sets

    constructor (sets: Sets)
      ensures this.sets == sets
    {
      this.sets := sets;
    }

    method CreateObject(sts: StatefulSet, a: WriteAnswer) returns (ok: bool)
      modifies this
      ensures (sets, ok) == Stored(old(sets), sts.AsValue(), a)
    {
      if sts.name in sets { return false; }
      if a.Done? || a.applied { sets := sets[sts.name := sts.AsValue()]; }
      ok := a.Done?;
    }

    method UpdateObject(read: Value, sts: StatefulSet, a: WriteAnswer) returns (ok: bool)
      modifies this
      ensures (sets, ok) == Replaced(old(sets), read, sts.AsValue(), a)
    {
      if read.name !in sets || sets[read.name] != read { return false; }
      if a.Done? || a.applied { sets := sets[read.name := sts.AsValue()]; }
      ok := a.Done?;
    }
  }

  method CreateStatefulSet(op: Operator, cluster: string, role: Role, ordinal: int32, a: WriteAnswer,
                           store: StatefulSetStore) returns (ok: bool)
    modifies store
    ensures var v := NewSet(op, cluster, role, ordinal);
      (store.sets, ok) == if v.None? then (old(store.sets), false) else Stored(old(store.sets), v.value, a)
  {
    var stsName := Names.ReplicasetName(role.name, ordinal);
    var replicasetUUID := UuidOf(op, role.name, ordinal);
    var selector := SpecSelector(op.ns, Identity(cluster, role.name, stsName, replicasetUUID, ordinal));
    var sts := new StatefulSet(Blank(stsName, selector, FixedOf(cluster, role), role.replicas));
    var _, synced := sts.SyncStatefulSet(op, cluster, role, ordinal, replicasetUUID);
    if !synced { return false; }
    ok := store.CreateObject(sts, a);
  }

  method CreateStatefulSets(op: Operator, cluster: string, role: Role, at: nat -> CreateAnswer,
                            store: StatefulSetStore) returns (ok: bool)
    modifies store
    ensures (store.sets, ok) == CreateFrom(op, cluster, role, 0, at, old(store.sets))
  {
    var ordinal: int32 := 0;
    while ordinal < role.replicasets
      invariant ordinal >= 0
      invariant CreateFrom(op, cluster, role, ordinal, at, store.sets) ==
                CreateFrom(op, cluster, role, 0, at, old(store.sets))
      decreases role.replicasets - ordinal
    {
      var a := at(ordinal);
      var selector := SelectorByReplicasetOrdinal(op.ns, role.name, role.labels, ordinal);
      if !Finds(store.sets, selector, a.list) {
        if a.list.ListError? { return false; }
        ok := CreateStatefulSet(op, cluster, role, ordinal, a.write, store);
        if !ok { return; }
      }
      ordinal := ordinal + 1;
    }
    ok := true;
  }

  /** `updateStatefulSet` on a listed copy; it reports "updated" whenever it does not fail. */
  method UpdateStatefulSet(op: Operator, cluster: string, role: Role, read: Value, ordinal: int32, a: WriteAnswer,
                           store: StatefulSetStore)
    returns (updated: bool, ok: bool)
    requires Names.ParseInt32(At(read.labels, ReplicasetOrdinal(op.ns))) == Some(ordinal)
    modifies store
    ensures (store.sets, ok) == UpdateOne(op, cluster, role, read, a, old(store.sets)) && updated == ok
  {
    var sts := new StatefulSet(read);
    var changed, synced := sts.SyncStatefulSet(op, cluster, role, ordinal, UuidOf(op, role.name, ordinal));
    if !synced { return false, false; }
    if changed {
      ok := store.UpdateObject(read, sts, a);
      if !ok { return false, false; }
    }
    return true, true;
  }

  /** The result `complete` never says more than the absence of an error. */
  method UpdateStatefulSets(op: Operator, cluster: string, role: Role, answer: Option<seq<Value>>,
                            at: nat -> WriteAnswer, store: StatefulSetStore)
    returns (complete: bool, ok: bool)
    modifies store
    ensures (store.sets, ok) == UpdateAll(op, cluster, role, answer, at, old(store.sets)) && complete == ok
  {
    if answer.None? { return false, false; }
    var items := Filtered(answer.value, SelectorByRoleName(op.ns, role.name, role.labels));
    complete := true;
    for key := 0 to |items|
      invariant complete
      invariant UpdateItems(op, cluster, role, items[key..], key, at, store.sets) ==
                UpdateItems(op, cluster, role, items, 0, at, old(store.sets))
    {
      var ordinal := Names.ParseInt32(At(items[key].labels, ReplicasetOrdinal(op.ns)));
      if ordinal.None? { return false, false; }
      assert items[key..][0] == items[key] && items[key..][1..] == items[key + 1..];
      var updated;
      updated, ok := UpdateStatefulSet(op, cluster, role, items[key], ordinal.value, at(key), store);
      if !ok { return false, false; }
      if !updated { complete := false; }
    }
    ok := true;
  }
}
