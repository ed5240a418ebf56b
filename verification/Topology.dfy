/** Calls into the remote cartridge cluster: its state, its replies, and how the operator reads them. */
module Topology {
  import opened Basics

  datatype LuaError = LuaError(className: string, text: string)

  function Message(e: LuaError): string { e.className + ": " + e.text }

  /** A remote call fails in transport or answers with a flag and perhaps a Lua error. */
  datatype Reply = TransportFails(message: string) | Answer(res: bool, err: Option<LuaError>)

  datatype TopologyError = AlreadyJoined | UnknownRole(lua: LuaError) | TopologyIsDown | Other(message: string)

  /** How `Join` maps the reply of `admin_edit_topology`. */
  function JoinError(r: Reply): Option<TopologyError> {
    match r
    case TransportFails(m) => Some(Other("unable to edit topology: " + m))
    case Answer(_, Some(e)) =>
      if Contains(Message(e), "is already joined") then Some(AlreadyJoined)
      else if Contains(Message(e), "can not enable unknown role") then Some(UnknownRole(e))
      else Some(Other("unable to edit topology: " + Message(e)))
    case Answer(success, None) => if success then None else Some(TopologyIsDown)
  }

  /**
  Only a reply without an error and with a result is a success, and only an unknown role is told
  apart from other errors for good.
  */
  lemma JoinErrorByReply(r: Reply)
    ensures JoinError(r).None? <==> r == Answer(true, None)
    ensures JoinError(r).Some? && JoinError(r).value.UnknownRole? <==>
      && r.Answer? && r.err.Some?
      && !Contains(Message(r.err.value), "is already joined")
      && Contains(Message(r.err.value), "can not enable unknown role")
    ensures JoinError(r) == Some(AlreadyJoined) <==>
      r.Answer? && r.err.Some? && Contains(Message(r.err.value), "is already joined")
  {}

  predicate IsAlreadyBootstrapped(e: LuaError) {
    e.className == "Bootstrapping vshard failed" && Contains(e.text, "already bootstrapped")
  }

  /** The error `BootstrapVshard` returns for a reply, if any. */
  function BootstrapError(r: Reply): Option<string> {
    match r
    case TransportFails(m) => Some("unable to bootstrap cluster: " + m)
    case Answer(_, Some(e)) =>
      if IsAlreadyBootstrapped(e) then None else Some("unable to bootstrap cluster: " + Message(e))
    case Answer(_, None) => None
  }

  // ---------------------------------------------------------------- the remote side

  /**
  The instances that are part of the topology, those of them that already report a UUID,
  and whether vshard was bootstrapped. A joined instance may need a while to boot.
  */
  datatype Remote = Remote(joined: set<string>, booted: set<string>, vshard: bool)

  /** One answer to a join call: the reply, whether the edit took effect, whether the instance is up at once. */
  datatype JoinAnswer = JoinAnswer(reply: Reply, lands: bool, boots: bool)

  /** A successful reply means the edit took effect; a failed one leaves that open. */
  function AfterJoin(remote: Remote, pod: string, a: JoinAnswer): Remote {
    if a.lands || JoinError(a.reply).None? then
      Remote(remote.joined + {pod}, remote.booted + (if a.boots then {pod} else {}), remote.vshard)
    else remote
  }

  /**
  A call for a pod adds that pod, exactly if its reply says so or it took effect all the same;
  the pod may then report its UUID at once.
  */
  lemma JoinByAnswer(remote: Remote, pod: string, a: JoinAnswer)
    ensures var r := AfterJoin(remote, pod, a);
      var effective := a.lands || a.reply == Answer(true, None);
      && r.joined == remote.joined + (if effective then {pod} else {})
      && r.booted == remote.booted + (if effective && a.boots then {pod} else {})
      && r.vshard == remote.vshard
  {}

  /** What happens to one bootstrap call: it is lost on the way out or back, or reaches cartridge. */
  datatype BootstrapFate = Unreachable(message: string, applied: bool) | Reached(refusal: Option<LuaError>)

  const ALREADY := LuaError("Bootstrapping vshard failed", "already bootstrapped")

  /** Cartridge bootstraps once; afterwards every call that reaches it is told so. */
  function BootstrapVshard(vshard: bool, fate: BootstrapFate): (r: (bool, Reply))
    ensures vshard ==> r.0
  {
    match fate
    case Unreachable(m, applied) => (vshard || applied, TransportFails(m))
    case Reached(refusal) =>
      if vshard then (true, Answer(false, Some(ALREADY)))
      else if refusal.Some? && !IsAlreadyBootstrapped(refusal.value) then (false, Answer(false, refusal))
      else (true, Answer(true, None))
  }

  lemma AlreadyIsRecognised()
    ensures IsAlreadyBootstrapped(ALREADY)
  {
    assert OccursAt(ALREADY.text, "already bootstrapped", 0);
  }

  /**
  `BootstrapVshard` reports success exactly when the call reached a cartridge that is
  bootstrapped afterwards, whether by this call or by an earlier one.
  */
  lemma BootstrapSucceedsIff(vshard: bool, fate: BootstrapFate)
    ensures var (vshard', reply) := BootstrapVshard(vshard, fate);
      BootstrapError(reply).None? <==> fate.Reached? && vshard'
  {
    AlreadyIsRecognised();
  }
}
