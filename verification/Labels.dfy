/** The operator's own labels and the selectors made of them. */
module Labels {
  import opened Basics
  import Maps
  import Names

  type LabelMap = map<string, string>

  /** `namespacedLabel`: every key starts with the operator's label namespace. */
  function Key(ns: string, suffix: string): string { ns + "/" + suffix }

  function ClusterName(ns: string): string { Key(ns, "cluster-name") }
  function RoleName(ns: string): string { Key(ns, "role-name") }
  function ReplicasetName(ns: string): string { Key(ns, "replicaset-name") }
  function ReplicasetUUID(ns: string): string { Key(ns, "replicaset-uuid") }
  function ReplicasetOrdinal(ns: string): string { Key(ns, "replicaset-ordinal") }
  function PodTemplateHash(ns: string): string { Key(ns, "replicaset-pod-template-hash") }

  lemma KeyTail(ns: string, suffix: string)
    ensures |Key(ns, suffix)| == |ns| + 1 + |suffix| && Key(ns, suffix)[|ns| + 1..] == suffix
  {}

  /** No two of the six labels share a key, whatever the namespace. */
  lemma KeysDiffer(ns: string)
    ensures |{ClusterName(ns), RoleName(ns), ReplicasetName(ns), ReplicasetUUID(ns), ReplicasetOrdinal(ns),
              PodTemplateHash(ns)}| == 6
    ensures ClusterName(ns) !in {RoleName(ns), ReplicasetName(ns), ReplicasetUUID(ns), ReplicasetOrdinal(ns),
                                 PodTemplateHash(ns)}
    ensures RoleName(ns) !in {ReplicasetName(ns), ReplicasetUUID(ns), ReplicasetOrdinal(ns), PodTemplateHash(ns)}
    ensures ReplicasetName(ns) !in {ReplicasetUUID(ns), ReplicasetOrdinal(ns), PodTemplateHash(ns)}
    ensures ReplicasetUUID(ns) !in {ReplicasetOrdinal(ns), PodTemplateHash(ns)}
    ensures ReplicasetOrdinal(ns) != PodTemplateHash(ns)
  {
    KeyTail(ns, "cluster-name");
    KeyTail(ns, "role-name");
    KeyTail(ns, "replicaset-name");
    KeyTail(ns, "replicaset-uuid");
    KeyTail(ns, "replicaset-ordinal");
    KeyTail(ns, "replicaset-pod-template-hash");
    assert "replicaset-name"[11] != "replicaset-uuid"[11];
  }

  /** Go's lookup in a map that may be nil: a missing key reads as the empty string. */
  function At(labels: Option<LabelMap>, key: string): string {
    if labels.Some? && key in labels.value then labels.value[key] else ""
  }

  /** A nil map has no entries. */
  function Entries(labels: Option<LabelMap>): LabelMap {
    if labels.Some? then labels.value else map[]
  }

  /** A selector matches the labels that contain it. */
  predicate Matches(selector: LabelMap, labels: LabelMap) {
    forall k | k in selector :: k in labels && labels[k] == selector[k]
  }

  /** What the operator writes about a StatefulSet into its labels. */
  datatype Identity = Identity(cluster: string, role: string, name: string, uuid: string, ordinal: int32)

  function SystemLabels(ns: string, id: Identity, hash: string): LabelMap {
    map[ClusterName(ns) := id.cluster,
        RoleName(ns) := id.role,
        ReplicasetName(ns) := id.name,
        ReplicasetUUID(ns) := id.uuid,
        ReplicasetOrdinal(ns) := Names.Print(id.ordinal),
        PodTemplateHash(ns) := hash]
  }

  /** The labels say who the StatefulSet is. */
  predicate Identifies(ns: string, id: Identity, labels: LabelMap) {
    && ClusterName(ns) in labels && labels[ClusterName(ns)] == id.cluster
    && RoleName(ns) in labels && labels[RoleName(ns)] == id.role
    && ReplicasetName(ns) in labels && labels[ReplicasetName(ns)] == id.name
    && ReplicasetUUID(ns) in labels && labels[ReplicasetUUID(ns)] == id.uuid
    && ReplicasetOrdinal(ns) in labels && labels[ReplicasetOrdinal(ns)] == Names.Print(id.ordinal)
  }

  lemma SystemLabelsIdentify(ns: string, id: Identity, hash: string, labels: LabelMap)
    requires Matches(SystemLabels(ns, id, hash), labels)
    ensures Identifies(ns, id, labels)
    ensures PodTemplateHash(ns) in labels && labels[PodTemplateHash(ns)] == hash
  {
    KeysDiffer(ns);
    var system := SystemLabels(ns, id, hash);
    assert Identifies(ns, id, system) && system[PodTemplateHash(ns)] == hash;
  }

  // ---------------------------------------------------------------- selectors

  function SelectorByRoleName(ns: string, role: string, roleLabels: Option<LabelMap>): LabelMap {
    map[ClusterName(ns) := At(roleLabels, ClusterName(ns)), RoleName(ns) := role]
  }

  function SelectorByReplicasetOrdinal(ns: string, role: string, roleLabels: Option<LabelMap>, ordinal: int32): LabelMap
  {
    map[ClusterName(ns) := At(roleLabels, ClusterName(ns)),
        RoleName(ns) := role,
        ReplicasetOrdinal(ns) := Names.Print(ordinal)]
  }

  /**
  The selectors find exactly the StatefulSets they are meant to find: by role, those of the
  role in its cluster; by ordinal, those among them with that very ordinal.
  */
  lemma SelectorsAreExact(ns: string, id: Identity, labels: LabelMap, role: string, roleLabels: Option<LabelMap>,
                          ordinal: int32)
    requires Identifies(ns, id, labels)
    ensures Matches(SelectorByRoleName(ns, role, roleLabels), labels) <==>
            id.role == role && id.cluster == At(roleLabels, ClusterName(ns))
    ensures Matches(SelectorByReplicasetOrdinal(ns, role, roleLabels, ordinal), labels) <==>
            id.role == role && id.cluster == At(roleLabels, ClusterName(ns)) && id.ordinal == ordinal
  {
    KeysDiffer(ns);
    var byRole := SelectorByRoleName(ns, role, roleLabels);
    var byOrdinal := SelectorByReplicasetOrdinal(ns, role, roleLabels, ordinal);
    assert byRole[ClusterName(ns)] == At(roleLabels, ClusterName(ns)) && byRole[RoleName(ns)] == role;
    assert byOrdinal[ClusterName(ns)] == At(roleLabels, ClusterName(ns)) && byOrdinal[RoleName(ns)] == role;
    assert byOrdinal[ReplicasetOrdinal(ns)] == Names.Print(ordinal);
    if Names.Print(id.ordinal) == Names.Print(ordinal) {
      Names.PrintInjective(id.ordinal, ordinal);
    }
  }
}
