/** `SetVShardWeightsStep`: one weight call per listed StatefulSet, addressed by its UUID label. */
module Weights {
  import opened Basics
  import opened Labels
  import opened StatefulSets
  import opened Verdicts
  import Names
  import R = Replicasets

  /** A listed copy and whether it is being deleted. */
  datatype Item = Item(sts: Value, deleting: bool)

  datatype Listing = ListFails | Listed(items: seq<Item>)

  function ListAt(lists: seq<Listing>, o: nat): Listing {
    if o < |lists| then lists[o] else ListFails
  }

  /** Which UUIDs are called from the given counters on, and whether all of it succeeds; `fails` tells of each call. */
  function CallsFrom(ns: string, replicasets: int, lists: seq<Listing>, o: nat, i: nat, k: nat,
                     fails: nat -> bool): (seq<string>, bool)
    decreases replicasets - o, match ListAt(lists, o) { case ListFails => 0 case Listed(items) => |items| - i }
  {
    if o >= replicasets then ([], true)
    else
      match ListAt(lists, o)
      case ListFails => ([], false)
      case Listed(items) =>
        if i >= |items| then CallsFrom(ns, replicasets, lists, o + 1, 0, k, fails)
        else if items[i].deleting then CallsFrom(ns, replicasets, lists, o, i + 1, k, fails)
        else
          var uuid := At(items[i].sts.labels, ReplicasetUUID(ns));
          if fails(k) then ([uuid], false)
          else var (rest, ok) := CallsFrom(ns, replicasets, lists, o, i + 1, k + 1, fails); ([uuid] + rest, ok)
  }

  /** A StatefulSet the step is meant to give its weight. */
  ghost predicate Expected(replicasets: int, lists: seq<Listing>, o: nat, i: nat) {
    o < replicasets && ListAt(lists, o).Listed? && i < |lists[o].items| && !lists[o].items[i].deleting
  }

  ghost predicate NotBefore(o: nat, i: nat, o': nat, i': nat) { o < o' || (o == o' && i <= i') }

  /** The list of an ordinal shows StatefulSets of that ordinal that carry an identity of the operator. */
  ghost predicate Honest(op: Operator, role: Role, lists: seq<Listing>) {
    forall o: int32, i: nat | 0 <= o < |lists| && lists[o].Listed? && i < |lists[o].items| ::
      var v := lists[o].items[i].sts;
      R.Known(op, v) && R.Selected(v, SelectorByReplicasetOrdinal(op.ns, role.name, role.labels, o))
  }

  /** The label of a listed StatefulSet holds the UUID under which its ordinal is joined and configured. */
  lemma LabelIsUuid(op: Operator, role: Role, lists: seq<Listing>, o: int32, i: nat)
    requires Honest(op, role, lists) && 0 <= o < |lists| && lists[o].Listed? && i < |lists[o].items|
    ensures At(lists[o].items[i].sts.labels, ReplicasetUUID(op.ns)) == R.UuidOf(op, role.name, o)
  {
    var v := lists[o].items[i].sts;
    assert R.Known(op, v);
    R.FoundByOrdinal(op, role, o, map[v.name := v], v.name);
  }

  /** The UUID of an ordinal of this role of which a StatefulSet is listed. */
  ghost predicate Own(op: Operator, role: Role, lists: seq<Listing>, uuid: string) {
    exists o: int32, i: nat :: o >= 0 && Expected(role.replicasets, lists, o, i) && uuid == R.UuidOf(op, role.name, o)
  }

  /** The UUID label of a StatefulSet the step is meant to give its weight. */
  ghost predicate Labelled(ns: string, replicasets: int, lists: seq<Listing>, uuid: string) {
    exists o: nat, i: nat :: Expected(replicasets, lists, o, i)
           && uuid == At(lists[o].items[i].sts.labels, ReplicasetUUID(ns))
  }

  lemma {:induction false} CallsAreLabelled(ns: string, replicasets: int, lists: seq<Listing>, o: nat, i: nat, k: nat,
                                            fails: nat -> bool, u: string)
    requires u in CallsFrom(ns, replicasets, lists, o, i, k, fails).0
    ensures Labelled(ns, replicasets, lists, u)
    decreases replicasets - o, match ListAt(lists, o) { case ListFails => 0 case Listed(items) => |items| - i }
  {
    var items := lists[o].items;
    if i >= |items| {
      CallsAreLabelled(ns, replicasets, lists, o + 1, 0, k, fails, u);
    } else if items[i].deleting {
      CallsAreLabelled(ns, replicasets, lists, o, i + 1, k, fails, u);
    } else if u == At(items[i].sts.labels, ReplicasetUUID(ns)) {
      assert Expected(replicasets, lists, o, i);
    } else {
      CallsAreLabelled(ns, replicasets, lists, o, i + 1, k + 1, fails, u);
    }
  }

  lemma {:induction false} CallsReach(ns: string, replicasets: int, lists: seq<Listing>, o: nat, i: nat, k: nat,
                                      fails: nat -> bool, o': nat, i': nat)
    requires CallsFrom(ns, replicasets, lists, o, i, k, fails).1
    requires NotBefore(o, i, o', i') && Expected(replicasets, lists, o', i')
    ensures At(lists[o'].items[i'].sts.labels, ReplicasetUUID(ns))
            in CallsFrom(ns, replicasets, lists, o, i, k, fails).0
    decreases replicasets - o, match ListAt(lists, o) { case ListFails => 0 case Listed(items) => |items| - i }
  {
    var items := lists[o].items;
    if i >= |items| {
      CallsReach(ns, replicasets, lists, o + 1, 0, k, fails, o', i');
    } else if items[i].deleting {
      CallsReach(ns, replicasets, lists, o, i + 1, k, fails, o', i');
    } else if (o, i) != (o', i') {
      CallsReach(ns, replicasets, lists, o, i + 1, k + 1, fails, o', i');
    }
  }

  lemma {:induction false} SuccessNeedsLists(ns: string, replicasets: int, lists: seq<Listing>, o: nat, i: nat,
                                             k: nat, fails: nat -> bool, bad: nat)
    requires CallsFrom(ns, replicasets, lists, o, i, k, fails).1 && o <= bad < replicasets
    ensures ListAt(lists, bad).Listed?
    decreases replicasets - o, match ListAt(lists, o) { case ListFails => 0 case Listed(items) => |items| - i }
  {
    var items := lists[o].items;
    if i >= |items| {
      if o < bad { SuccessNeedsLists(ns, replicasets, lists, o + 1, 0, k, fails, bad); }
    } else if items[i].deleting {
      SuccessNeedsLists(ns, replicasets, lists, o, i + 1, k, fails, bad);
    } else {
      SuccessNeedsLists(ns, replicasets, lists, o, i + 1, k + 1, fails, bad);
    }
  }

  /** The lists of all ordinals from this one on succeed. */
  ghost predicate AllListed(replicasets: int, lists: seq<Listing>, o: nat) {
    forall o': nat | o <= o' < replicasets :: ListAt(lists, o').Listed?
  }

  /** None of the n calls from the k-th answer on fails. */
  ghost predicate NoneFails(n: nat, k: nat, fails: nat -> bool) {
    forall j: nat | k <= j < k + n :: !fails(j)
  }

  /** A pass succeeds exactly if every list does and none of its calls fails. */
  lemma {:induction false} SucceedsIff(ns: string, replicasets: int, lists: seq<Listing>, o: nat, i: nat, k: nat,
                                       fails: nat -> bool)
    ensures var (calls, ok) := CallsFrom(ns, replicasets, lists, o, i, k, fails);
      ok <==> AllListed(replicasets, lists, o) && NoneFails(|calls|, k, fails)
    decreases replicasets - o, match ListAt(lists, o) { case ListFails => 0 case Listed(items) => |items| - i }
  {
    if o >= replicasets {
    } else {
      match ListAt(lists, o)
      case ListFails =>
      case Listed(items) =>
        assert AllListed(replicasets, lists, o) <==> AllListed(replicasets, lists, o + 1);
        if i >= |items| {
          SucceedsIff(ns, replicasets, lists, o + 1, 0, k, fails);
        } else if items[i].deleting {
          SucceedsIff(ns, replicasets, lists, o, i + 1, k, fails);
        } else if fails(k) {
        } else {
          SucceedsIff(ns, replicasets, lists, o, i + 1, k + 1, fails);
        }
    }
  }

  /**
  Weights go where the instances were joined: a pass calls UUIDs of this role's ordinals
  only, and one that succeeds listed every ordinal and called exactly the UUIDs of those
  with a StatefulSet that is not being deleted.
  */
  lemma CallsAreExact(op: Operator, role: Role, lists: seq<Listing>, fails: nat -> bool)
    requires Honest(op, role, lists)
    ensures var (calls, ok) := CallsFrom(op.ns, role.replicasets, lists, 0, 0, 0, fails);
      && (forall u | u in calls :: Own(op, role, lists, u))
      && (ok ==> forall u | Own(op, role, lists, u) :: u in calls)
      && (ok ==> forall o: nat | o < role.replicasets :: ListAt(lists, o).Listed?)
  {
    var (calls, ok) := CallsFrom(op.ns, role.replicasets, lists, 0, 0, 0, fails);
    forall u | u in calls
      ensures Own(op, role, lists, u)
    {
      CallsAreLabelled(op.ns, role.replicasets, lists, 0, 0, 0, fails, u);
      var o: nat, i: nat :| Expected(role.replicasets, lists, o, i)
          && u == At(lists[o].items[i].sts.labels, ReplicasetUUID(op.ns));
      LabelIsUuid(op, role, lists, o, i);
    }
    if ok {
      forall u | Own(op, role, lists, u)
        ensures u in calls
      {
        var o: int32, i: nat :| o >= 0 && Expected(role.replicasets, lists, o, i) && u == R.UuidOf(op, role.name, o);
        LabelIsUuid(op, role, lists, o, i);
        CallsReach(op.ns, role.replicasets, lists, 0, 0, 0, fails, o, i);
      }
      forall o: nat | o < role.replicasets
        ensures ListAt(lists, o).Listed?
      {
        SuccessNeedsLists(op.ns, role.replicasets, lists, 0, 0, 0, fails, o);
      }
    }
  }

  // ---------------------------------------------------------------- the operator's code

  class WeightsTopology {
    var calls: seq<(string, int32)>

    constructor ()
      ensures calls == []
    {
      calls := [];
    }

    method SetWeight(uuid: string, weight: int32, fails: bool) returns (ok: bool)
      modifies this
      ensures calls == old(calls) + [(uuid, weight)] && ok == !fails
    {
      calls := calls + [(uuid, weight)];
      ok := !fails;
    }
  }

  function Weighted(uuids: seq<string>, weight: int32): seq<(string, int32)> {
    seq(|uuids|, i requires 0 <= i < |uuids| => (uuids[i], weight))
  }

  lemma WeightedOneMore(uuid: string, rest: seq<string>, weight: int32)
    ensures Weighted([uuid] + rest, weight) == [(uuid, weight)] + Weighted(rest, weight)
  {}

  method SetVShardWeights(ns: string, replicasets: int32, weight: int32, lists: seq<Listing>, fails: nat -> bool,
                          topology: WeightsTopology)
    returns (v: Verdict)
    modifies topology
    ensures var (uuids, ok) := CallsFrom(ns, replicasets, lists, 0, 0, 0, fails);
      && topology.calls == old(topology.calls) + Weighted(uuids, weight)
      && (v == NEXT_STEP <==> ok) && (!ok ==> v.err.Some?)
  {
    ghost var (all, good) := CallsFrom(ns, replicasets, lists, 0, 0, 0, fails);
    ghost var before := topology.calls;
    var count: nat := if replicasets < 0 then 0 else replicasets;
    var k := 0;
    for o := 0 to count
      invariant before <= topology.calls
      invariant var (rest, ok) := CallsFrom(ns, replicasets, lists, o, 0, k, fails);
        ok == good && before + Weighted(all, weight) == topology.calls + Weighted(rest, weight)
    {
      var list := ListAt(lists, o);
      if list.ListFails? { return Error("unable to list StatefulSets"); }
      for i := 0 to |list.items|
        invariant before <= topology.calls
        invariant var (rest, ok) := CallsFrom(ns, replicasets, lists, o, i, k, fails);
          ok == good && before + Weighted(all, weight) == topology.calls + Weighted(rest, weight)
      {
        if list.items[i].deleting { continue; }
        var uuid := At(list.items[i].sts.labels, ReplicasetUUID(ns));
        ghost var rest := if fails(k) then [] else CallsFrom(ns, replicasets, lists, o, i + 1, k + 1, fails).0;
        WeightedOneMore(uuid, rest, weight);
        var ok := topology.SetWeight(uuid, weight, fails(k));
        k := k + 1;
        if !ok { return Error("unable to set weight"); }
      }
    }
    return NEXT_STEP;
  }
}
