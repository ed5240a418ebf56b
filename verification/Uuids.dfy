/**
One UUID per replicaset: joining, role configuration, weights, the StatefulSet's label and
its selector all use the same one.
*/
module Uuids {
  import opened Basics
  import opened Labels
  import opened StatefulSets
  import opened Replicasets
  import opened Election
  import opened ClusterStatus
  import opened Topology
  import Joining
  import Names
  import VShardRoles

  /** The list of an ordinal names stored StatefulSets that the ordinal's selector matches. */
  ghost predicate ListsAreOf(op: Operator, role: Role, sets: Sets, lists: seq<Joining.Listing>) {
    forall o: nat, i: nat | o < |lists| && o < role.replicasets && lists[o].Listed? && i < |lists[o].items| ::
      var n := lists[o].items[i].name;
      n in sets && Selected(sets[n], SelectorByReplicasetOrdinal(op.ns, role.name, role.labels, o))
  }

  /** The join call is for a pod of this StatefulSet, under the UUID of its label and selector. */
  ghost predicate JoinedAs(op: Operator, role: Role, sets: Sets, c: Joining.Call, o: int32, p: nat) {
    && o >= 0 && c.pod == Names.PodName(role.name, o, p)
    && Names.ReplicasetName(role.name, o) in sets
    && var sts := sets[Names.ReplicasetName(role.name, o)];
    && At(sts.labels, ReplicasetUUID(op.ns)) == c.edit.uuid
    && At(Some(sts.selector), ReplicasetUUID(op.ns)) == c.edit.uuid
    && c.edit.uuid == UuidOf(op, role.name, o)
  }

  /** Every instance is joined under the UUID that its StatefulSet's label and selector hold. */
  lemma JoinedUnderOwnUuid(op: Operator, role: Role, sets: Sets, pass: Joining.Pass, lists: seq<Joining.Listing>,
                           remote: Remote, phase: Phase, c: Joining.Call)
    requires Coherent(op, sets) && ListsAreOf(op, role, sets, lists)
    requires pass.role == RoleShape(role.name, role.replicasets, role.replicas) && pass.spec.uuidOf == op.uuidOf
    requires c in Joining.JoinInstances(pass, lists, remote, phase).calls
    ensures exists o: int32, p: nat :: JoinedAs(op, role, sets, c, o, p)
  {
    var walk := Joining.Walk(pass.role, lists);
    Joining.CallsAreProper(pass, walk, walk, 0, Joining.Start(remote, phase));
    var v :| v in walk && Joining.CallFor(pass, v, c);
    Joining.WalkIsMeant(pass.role, lists, 0, 0, 0, v);
    var i: nat, p: nat :|
      && Joining.Expected(pass.role, lists, v.replicaset, i, p)
      && v.pod == Names.Dashed(lists[v.replicaset].items[i].name, p);
    var o: int32 := v.replicaset;
    FoundByOrdinal(op, role, o, sets, lists[o].items[i].name);
    assert JoinedAs(op, role, sets, c, o, p);
  }

  /** Roles are configured under the same UUID. */
  lemma ConfiguredUnderOwnUuid(op: Operator, role: Role, sets: Sets, desired: seq<string>, o: int32, n: string)
    requires Coherent(op, sets) && n in sets && o >= 0
    requires Selected(sets[n], SelectorByReplicasetOrdinal(op.ns, role.name, role.labels, o))
    ensures VShardRoles.Task(role.name, desired, op.uuidOf).UuidOf(o) == At(sets[n].labels, ReplicasetUUID(op.ns))
  {
    FoundByOrdinal(op, role, o, sets, n);
  }
}
