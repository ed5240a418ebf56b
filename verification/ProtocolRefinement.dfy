/**
The join gate of the protocol, taken apart into single moves so that others may come in
between, refines the join step: when nothing comes in between, the moves add up to it.
*/
module ProtocolRefinement {
  import opened Basics
  import opened ClusterStatus
  import opened Election
  import opened Topology
  import opened Verdicts
  import opened Protocol
  import J = Joining

  /** The moves of one pod visit: look at it, and if that leads to a call, receive the reply. */
  function VisitMoves(c: Setup, w: World, r: Rec, pass: J.Pass, a: J.Answers): (World, Rec)
    requires r.copy.Some? && r.loops.Some?
  {
    var (w1, r1) := JoinGate(c, w, r, pass.role, pass.onError, Looked(a));
    if r1.copy.Some? && r1.loops.Some? && r1.loops.value.calling && r1.loops.value.cursor < |r1.loops.value.walk|
       && r1.loops.value.walk[r1.loops.value.cursor].PodVisit?
    then
      var pod := r1.loops.value.walk[r1.loops.value.cursor].pod;
      JoinGate(c, w1, r1, pass.role, pass.onError, Replied(J.JoinAnswerFor(a, pod)))
    else (w1, r1)
  }

  /** All moves from here on, with so many visits left. */
  function Moves(c: Setup, w: World, r: Rec, pass: J.Pass, k: nat, left: nat): (World, Rec)
    decreases left
  {
    if r.copy.None? || r.loops.None? || r.done then (w, r)
    else if left == 0 then JoinGate(c, w, r, pass.role, pass.onError, Pass)
    else
      var (w', r') := VisitMoves(c, w, r, pass, pass.at(k));
      Moves(c, w', r', pass, k + 1, left - 1)
  }

  /** The loops as the join step has them at the same point. */
  ghost function Now(w: World, r: Rec, calls: seq<J.Call>): J.Progress
    requires r.loops.Some?
  {
    J.Progress(w.remote, calls, r.loops.value.allJoined, r.phase, None)
  }

  /** The reconcile stands between two visits. */
  ghost predicate Between(r: Rec) {
    r.copy.Some? && r.loops.Some? && !r.done && !r.loops.value.calling && r.loops.value.cursor <= |r.loops.value.walk|
  }

  /** The outcome of a visit agrees with the outcome of an iteration. */
  ghost predicate Agree(r: Rec, w': World, r': Rec, s: J.Progress)
    requires r.loops.Some?
  {
    && w'.remote == s.remote && r'.phase == s.phase && r'.pc == r.pc && r'.leader == r.leader && r'.copy == r.copy
    && if s.stopped.Some? then r'.done && r'.loops.None? && J.Outcome(s) != NEXT_STEP
       else !r'.done && r'.loops == Some(Loops(r.loops.value.walk, r.loops.value.cursor + 1, s.allJoined, false))
  }

  lemma LookRefines(c: Setup, w: World, r: Rec, pass: J.Pass, a: J.Answers, calls: seq<J.Call>)
    requires Between(r) && r.loops.value.cursor < |r.loops.value.walk| && pass.leader == r.leader
    requires !J.Inspect(r.loops.value.walk[r.loops.value.cursor], r.leader, w.remote.booted, a).CallJoin?
    ensures var v := r.loops.value.walk[r.loops.value.cursor];
      var (w', r') := VisitMoves(c, w, r, pass, a);
      Agree(r, w', r', J.Iterate(pass, v, a, Now(w, r, calls)))
  {}

  lemma CallRefines(c: Setup, w: World, r: Rec, pass: J.Pass, a: J.Answers, calls: seq<J.Call>)
    requires Between(r) && r.loops.value.cursor < |r.loops.value.walk| && pass.leader == r.leader
    requires J.Inspect(r.loops.value.walk[r.loops.value.cursor], r.leader, w.remote.booted, a).CallJoin?
    ensures var v := r.loops.value.walk[r.loops.value.cursor];
      var (w', r') := VisitMoves(c, w, r, pass, a);
      Agree(r, w', r', J.Iterate(pass, v, a, Now(w, r, calls)))
  {
    var l := r.loops.value;
    var (w1, r1) := JoinGate(c, w, r, pass.role, pass.onError, Looked(a));
    assert w1 == w && r1 == r.(loops := Some(l.(calling := true)));
  }

  /** One visit does to the world and the reconcile what one iteration of the join step does. */
  lemma VisitRefines(c: Setup, w: World, r: Rec, pass: J.Pass, a: J.Answers, calls: seq<J.Call>)
    requires Between(r) && r.loops.value.cursor < |r.loops.value.walk| && pass.leader == r.leader
    ensures var v := r.loops.value.walk[r.loops.value.cursor];
      var (w', r') := VisitMoves(c, w, r, pass, a);
      Agree(r, w', r', J.Iterate(pass, v, a, Now(w, r, calls)))
  {
    var v := r.loops.value.walk[r.loops.value.cursor];
    if J.Inspect(v, r.leader, w.remote.booted, a).CallJoin? {
      CallRefines(c, w, r, pass, a, calls);
    } else {
      LookRefines(c, w, r, pass, a, calls);
    }
  }

  /**
  Without interference the gate ends as the step would: same remote cluster, same phase,
  and it lets the reconcile go on exactly when the step returns NextStep.
  */
  lemma {:induction false} JoinGateRefinesStep(c: Setup, w: World, r: Rec, pass: J.Pass, k: nat, left: nat,
                                               calls: seq<J.Call>)
    requires Between(r) && left == |r.loops.value.walk| - r.loops.value.cursor && pass.leader == r.leader
    ensures var s := J.JoinOver(pass, r.loops.value.walk[r.loops.value.cursor..], k, Now(w, r, calls));
      var (w', r') := Moves(c, w, r, pass, k, left);
      && w'.remote == s.remote && r'.phase == s.phase && r'.loops.None?
      && (if J.Outcome(s) == NEXT_STEP then !r'.done && r'.pc == r.pc + 1 else r'.done && r'.pc == r.pc)
    decreases left
  {
    if left == 0 {
    } else {
      var l := r.loops.value;
      var v, rest := l.walk[l.cursor], l.walk[l.cursor + 1..];
      assert l.walk[l.cursor..] == [v] + rest;
      J.OneVisit(pass, v, rest, k, Now(w, r, calls));
      VisitRefines(c, w, r, pass, pass.at(k), calls);
      var s := J.Iterate(pass, v, pass.at(k), Now(w, r, calls));
      var (w', r') := VisitMoves(c, w, r, pass, pass.at(k));
      if s.stopped.None? {
        assert Now(w', r', s.calls) == s;
        JoinGateRefinesStep(c, w', r', pass, k + 1, left - 1, s.calls);
      }
    }
  }
}
