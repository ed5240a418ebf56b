/**
The persisted `Cluster` status: its history of versions, in-memory copies, and the
version-checked write every controller goes through.
*/
module ClusterStatus {
  import opened Basics

  /** The phases of the three controllers' objects; `Unset` is the empty string. */
  datatype Phase =
    | Unset | Pending | Ready | WaitingForLeader
    // Cluster
    | SyncingService | WaitingForRoles | UnableToBootstrap | FailoverConfiguring
    // Role
    | WaitingForCluster | WaitForCartridgeReady | Joining | Configuring
    | WaitingForBootstrap | ConfiguringWeights | ConfigError
    // CartridgeConfig (which also uses WaitingForCluster and WaitingForLeader)
    | Applying

  datatype Status = Status(phase: Phase, bootstrapped: bool, leader: string)

  /** An in-memory object: the version it was read at, as an index in the history, and its status now. */
  datatype Copy = Copy(base: nat, status: Status)

  /** What the network does to one write: nothing, drops the request, or drops the reply. */
  datatype Fault = NoFault | RequestLost | ReplyLost

  datatype WriteResult = Written | Conflict | WriteFailed

  type History = h: seq<Status> | |h| > 0 witness [Status(Unset, false, "")]

  function Last(h: History): Status { h[|h| - 1] }

  /** A write that changes nothing does not make a new version. */
  function Appended(h: History, s: Status): History {
    if s == Last(h) then h else h + [s]
  }

  /**
  `Status().Update`: accepted only when the copy is based on the current version; the
  copy then carries the new version, unless the caller never hears of it.
  */
  function Write(h: History, c: Copy, fault: Fault): (History, Copy, WriteResult) {
    if fault == RequestLost then (h, c, WriteFailed)
    else if c.base != |h| - 1 then (h, c, if fault == ReplyLost then WriteFailed else Conflict)
    else
      var h' := Appended(h, c.status);
      if fault == ReplyLost then (h', c, WriteFailed)
      else (h', Copy(|h'| - 1, c.status), Written)
  }

  /**
  A write by its circumstances: the history grows exactly if the request arrives at the
  version the copy is based on with something new; the writer hears of success exactly if
  the reply arrives too, and of a conflict exactly if it was told that its version is old.
  */
  lemma WriteByCircumstances(h: History, c: Copy, fault: Fault)
    ensures var (h', c', r) := Write(h, c, fault);
      && (h' == if fault != RequestLost && c.base == |h| - 1 && c.status != h[|h| - 1] then h + [c.status] else h)
      && (r == Written <==> fault == NoFault && c.base == |h| - 1)
      && (r == Conflict <==> fault == NoFault && c.base != |h| - 1)
      && c'.status == c.status && c'.base == if r == Written then |h'| - 1 else c.base
  {}

  /** `Cluster.GetLeader`: a foreign leader named in the spec hides the elected one. */
  function EffectiveLeader(foreign: string, s: Status): string {
    if foreign != "" then foreign else s.leader
  }

  class Cluster {
    const foreignLeader: string
    var version: nat
    var phase: Phase
    var bootstrapped: bool
    var leader: string

    constructor (foreign: string, c: Copy)
      ensures foreignLeader == foreign && Value() == c
    {
      foreignLeader := foreign;
      version := c.base;
      phase, bootstrapped, leader := c.status.phase, c.status.bootstrapped, c.status.leader;
    }

    function Value(): Copy
      reads this
    {
      Copy(version, Status(phase, bootstrapped, leader))
    }

    function GetLeader(): (r: string)
      reads this
      ensures r == "" <==> foreignLeader == "" && leader == ""
      ensures r == foreignLeader || (foreignLeader == "" && r == leader)
    {
      EffectiveLeader(foreignLeader, Value().status)
    }

    method SetLeader(name: string)
      modifies this`leader
      ensures Value() == old(Value()).(status := old(Value()).status.(leader := name))
    {
      leader := name;
    }

    method MarkBootstrapped()
      modifies this`bootstrapped
      ensures Value() == old(Value()).(status := old(Value()).status.(bootstrapped := true))
    {
      bootstrapped := true;
    }

    method SetPhase(p: Phase)
      modifies this`phase
      ensures Value() == old(Value()).(status := old(Value()).status.(phase := p))
    {
      phase := p;
    }

    /** Forgets the phase and keeps what must survive a reconcile: the flag and the leader. */
    method ResetStatus()
      modifies this
      ensures Value() == old(Value()).(status := Status(Unset, old(bootstrapped), old(leader)))
    {
      phase, bootstrapped, leader := Unset, bootstrapped, leader;
    }
  }

  class StatusStore {
    var versions: History

    constructor (h: History)
      ensures versions == h
    {
      versions := h;
    }

    method Update(cluster: Cluster, fault: Fault) returns (r: WriteResult)
      modifies this, cluster`version
      ensures (versions, cluster.Value(), r) == Write(old(versions), old(cluster.Value()), fault)
    {
      if fault == RequestLost { return WriteFailed; }
      if cluster.version != |versions| - 1 {
        return if fault == ReplyLost then WriteFailed else Conflict;
      }
      versions := Appended(versions, cluster.Value().status);
      if fault == ReplyLost { return WriteFailed; }
      cluster.version := |versions| - 1;
      return Written;
    }
  }
}
