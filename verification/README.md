# A verified model of the Tarantool operator's protocol

The operator runs three reconcilers, for `Cluster`, `Role` and `CartridgeConfig` objects. Each
runs a list of steps and then writes a status. Together they create the StatefulSets of every
role, elect one pod as the leader of the topology, join every instance to the Cartridge cluster
through it, bootstrap vshard once, and set roles and weights of the replicasets. No single
function makes this safe: it rests on the order of the steps of three controllers, on
version-checked status writes, and on a rule in the leader election.

The project models that protocol as a state machine over arbitrary interleavings and proves what
every run guarantees. Beneath it, the loops and in-place updates the protocol is made of are
methods over objects, each proved against a function, and the functions have theorems of their own.

## How it is organised

| file | content |
|---|---|
| `Basics.dfy`, `Verdicts.dfy` | options, results, 32-bit truncation, substring search; what a step returns |
| `Names.dfy` | `%d`, `ParseInt`, replicaset, pod and seed names |
| `Maps.dfy`, `Labels.dfy` | `MergeMaps`; the operator's label keys and selectors |
| `ClusterStatus.dfy` | the cluster status, its copies, and the version-checked write |
| `Topology.dfy` | remote calls, their replies and the remote state |
| `Election.dfy` | leader election and the ordered search |
| `Joining.dfy` | the join step |
| `Steps.dfy` | the three step lists and the loop that runs one |
| `Gates.dfy`, `Configuration.dfy` | the steps that can end a run |
| `VShardRoles.dfy`, `Weights.dfy` | role configuration and weights |
| `StatefulSets.dfy`, `Replicasets.dfy`, `Uuids.dfy` | StatefulSets: sync, create, update, and one identity throughout |
| `Protocol.dfy` | the three controllers as one transition system |
| `ProtocolInvariant.dfy` | the invariant and the proof that every move keeps it |
| `ProtocolTheorems.dfy` | what holds in every run |
| `ProtocolRefinement.dfy` | the protocol's join moves add up to the join step |
| `ProtocolWitness.dfy` | a run that gets from nothing joined to Ready |

## The protocol and its environment

`Protocol.World` holds every version of the cluster status ever persisted, every phase of every
role ever persisted, the remote cluster (joined instances, those that report a UUID, whether
vshard is bootstrapped), the reconciles in flight, and a record of leaders found unfit, of join
calls and of bootstrap calls. `Protocol.Apply` is total: a move that is not allowed changes
nothing, so `Protocol.Run` over any list of moves is a run. A reconcile takes one step per move;
the join step takes one move per pod that is looked at and one per reply. The step lists and the
functions that decide each gate are the ones the other modules verify.

What the environment may do:

- A read returns any version that was persisted at one time.
- A status write succeeds only on the current version; its request or its reply may be lost.
- A reconcile may be lost between any two moves. Any number of reconciles run at once.
- Someone else may create new versions of an object with the same status (labels, annotations).
- A join call that fails may have taken effect. So may a bootstrap call that fails in transport.
- A joined instance reports its UUID from some later time on, and keeps it.
- A pod may answer anything, except that an instance which reports itself configured has a UUID
  (`HonestPods`).
- Listed roles show phases they had at one time (`HonestViews`), each time possibly other roles.
- A successful list of the StatefulSets of an ordinal contains the one the role created for it,
  not being deleted (`ReflectsCreates`). `Replicasets.CreateCoversOrdinals` proves that it exists.
- Specs, the foreign leader among them, do not change during a run. Only the operator writes status.
- A run starts with one version without leader and flag and with no instance joined, or with a
  foreign leader that already runs a topology (`Initial`).

The StatefulSets of a namespace may include other people's; whatever carries the operator's
cluster label was made by the operator (`Replicasets.Coherent`).

UUIDv5 (section 4.3 of RFC 4122) and the template hash are function parameters; where a result
needs them to be injective, it says so. In `StatefulSets`, the template hash is in fact a 32-bit
one, so the condition under which it can replace a comparison does not hold for all templates:
`HashRefinesCopyingIff` gives the exact condition and `FiniteHashMissesAnEdit` shows that no hash
with finitely many values meets it.

## Where code and comments differ

The model follows the code:

- The search for a leader goes by pod ordinal, then replicaset ordinal, then role
  (`pkg/election/election.go:144-146`); the comment at 110-112 names the reverse order.
- A leader pod that is not found is an error, also after bootstrap
  (`pkg/election/election.go:88-91`), although the comment at 36-38 promises a new election when
  the leader is not available. `Election.UnavailableLeaderIsReplacedIff` says exactly when the
  promise is kept, `Election.DeletedLeaderBlocksElection` gives a cluster in which it is not.
- The branch for a cluster that is not found (`pkg/reconciliation/steps/common/get_cluster_by_labels.go:43-49`)
  is never reached, as 39-41 return first; the model has the plain error only.
- A configuration with nothing to change stays at Applying
  (`pkg/reconciliation/steps/cartridge/configure.go:29-33`), so a run gets to Ready only if it changed
  something: `Configuration.ConfigRunEndsReadyIff`.
- The number of pods that `EnsureCartridgeReady` waits for is a 32-bit product and may wrap
  (`pkg/reconciliation/steps/role/ensure_cartridge_ready.go:43`): `Gates.ReadyGateIsSoundIff`.
- `UpdateStatefulSets` returns `complete` whenever it does not fail
  (`internal/implementation/replicasets_manger.go:93-98,162`).
- The role comparison looks one level deep (`pkg/utils/vshard.go:15-17`), so it recognises what
  cartridge reports only for hierarchies that are transitively closed (`VShardRoles.ReportsRecognisedIff`), and only
  in those does reconciling always settle (`VShardRoles.SettlesIffClosed`).

## Model

| member | source | states |
|---|---|---|
| ProtocolTheorems.NoSplitBrain | pkg/election/election.go:36-59 | In every run, all join calls of reconciles that saw the cluster as not bootstrapped go through one and the same leader |
| ProtocolTheorems.OneLeaderBeforeBootstrap | pkg/election/election.go:36-59 | And no persisted version that is not bootstrapped ever names another effective leader |
| ProtocolTheorems.BootstrapAfterJoins | controllers/cluster_controller.go:122-141 | In every run, a bootstrap call is made only for a non-empty list of roles all of whose instances are in the topology by then |
| ProtocolTheorems.FounderFirst | pkg/reconciliation/steps/role/join_instances.go:71-111 | In every run that starts with nothing joined, the first join to take effect is the pre-bootstrap leader joining itself in an empty topology, and every later one that takes effect goes through an instance that has a UUID; a call through an instance without one is always the founder's for itself |
| ProtocolTheorems.JoinsGoThroughBooted | pkg/reconciliation/steps/role/join_instances.go:78-92 | Every join call, effective or not, goes through an instance with a UUID exactly if there is one; the only exception, while there is none, is the founder being asked to join itself in a topology of itself at most |
| ProtocolWitness.FounderMayBeAskedTwice | pkg/reconciliation/steps/role/join_instances.go:78-81 | That exception occurs: in a reachable state a second call asks the founder, joined but without a UUID, to join itself again; it changes nothing |
| ProtocolWitness.ReadyIsReachable | controllers/cluster_controller.go:113-142 | A run from a state with nothing joined ends with the flag persisted, vshard bootstrapped and a role at Ready |
| ProtocolTheorems.JoinsAccountForTopology | pkg/reconciliation/steps/role/join_instances.go:101-112 | In every run the topology changes by join calls alone, one after another, each adding its own pod at most; every instance not there at the start was added by a call for it |
| ProtocolTheorems.LeaderStability | pkg/election/election.go:42-103 | In every run a persisted leader changes only to a non-empty one, from a bootstrapped version, after a reconcile based on that version found its effective leader existing but unfit |
| ProtocolTheorems.BootstrappedIsMonotone | apis/v1beta1/cluster_types.go:273-287 | In every run, once a version is bootstrapped every later one is, whichever controller wrote it |
| ProtocolTheorems.FlagImpliesRemote | pkg/reconciliation/steps/cluster/bootstrap.go:23-45 | A persisted flag means that the remote side is bootstrapped, that a bootstrap call was made, and that there is a leader |
| ProtocolTheorems.CrashedBootstrapIsRecovered | pkg/reconciliation/steps/cluster/bootstrap.go:28-44 | In every reachable state with vshard bootstrapped but not flagged, a reconcile at the gate whose call reaches cartridge passes it with the flag set and leaves the remote side alone |
| ProtocolTheorems.RecoveredFlagIsWritten | pkg/reconciliation/reconciler.go:40-43 | A reconcile past the bootstrap gate, wherever it stopped, persists the flag if its base is current and its write goes through |
| ProtocolTheorems.RefusedBootstrapIsShown | pkg/reconciliation/steps/cluster/bootstrap.go:30-37 | A bootstrap refused for want of routers or storages ends the reconcile with the flag unset, and UnableToBootstrap is persisted if its base is current and its write goes through |
| ProtocolTheorems.RolePhaseIsWritten | pkg/reconciliation/reconciler.go:66-76 | A role reconcile persists its phase exactly if it read its role, that version is still current, the phase is new and the write arrives |
| ProtocolTheorems.AnyVersionIsRead | pkg/reconciliation/steps/common/get_cluster_by_labels.go:22-55 | A step that reads the cluster goes on with any version that was persisted at one time, and only with such |
| ProtocolTheorems.EnvironmentMayMove | pkg/reconciliation/reconciler.go:66-76 | In every state, any reconcile may be lost, objects may get new versions with the same status, and joined instances may start to report a UUID |
| ProtocolTheorems.ClusterPhaseIsWitness | controllers/cluster_controller.go:134-139 | Every persisted cluster status at FailoverConfiguring or Ready is bootstrapped, over all writers |
| ProtocolTheorems.JoinedPhaseIsWitness | controllers/role_controller.go:128-137 | A role ever persisted at WaitingForBootstrap or later has all its instances in the topology |
| ProtocolTheorems.WeightsPhaseIsWitness | controllers/role_controller.go:136-142 | A role is persisted at ConfiguringWeights or Ready only when the cluster is persisted as bootstrapped and vshard is |
| ProtocolTheorems.RunGrows | pkg/reconciliation/reconciler.go:66-76 | Versions, join and bootstrap calls, observations and the remote state of a run are prefixes or parts of those of every longer run |
| ProtocolInvariant.ReachableInv | controllers/role_controller.go:102-145 | The invariant behind these theorems holds in every reachable state |
| ProtocolInvariant.MoveKeeps | pkg/reconciliation/reconciler.go:29-43 | Every single move keeps the invariant: a step of any controller, a crash, a status write, a move of the environment |
| ProtocolInvariant.WriteKeeps | pkg/election/election.go:67-76 | Writing a copy's status, stale or current, lost or not, keeps the invariant and forgets no version |
| ProtocolInvariant.LeaderGateSound | pkg/reconciliation/steps/common/get_leader.go:23-40 | The leader gate, in whichever controller, keeps the invariant: it uses the present leader, writes a permitted new one, or gives up |
| ProtocolInvariant.JoinGateSound | pkg/reconciliation/steps/role/join_instances.go:37-136 | Every move of the join loops keeps the invariant |
| ProtocolInvariant.OpenedMeansJoined | pkg/reconciliation/steps/cluster/wait_for_roles_phase.go:21-34 | The listing that opens the gate shows at least one role, and only roles whose instances have all joined |
| ProtocolInvariant.WalkCovers | pkg/reconciliation/steps/role/join_instances.go:37-52 | With lists that reflect the role's own creations and none failing, the loops visit every instance the role asks for |
| ProtocolRefinement.JoinGateRefinesStep | pkg/reconciliation/steps/role/join_instances.go:28-137 | Without interference the protocol's join moves end as the join step does: same remote cluster, same phase, and they let the reconcile go on exactly when the step returns NextStep |
| Election.VisitsExact | pkg/election/election.go:127-153 | The loops bounded by the maxima over all roles visit exactly the candidates in each role's own range, each once, in order |
| Election.SearchStopsAtFirst | pkg/election/election.go:155-186 | On every input, failures included, the search returns what its first decisive candidate decides, and ErrNoAvailableLeader exactly when none is decisive |
| Election.SearchCorrect | pkg/election/election.go:144-186 | When no lookup or probe that the search may make fails, the result is the least eligible pod other than the former leader, and ErrNoAvailableLeader exactly when there is none |
| Election.SearchByPods | pkg/election/election.go:155-213 | In terms of the pods, on every input: the search goes past the former leader, missing pods, pods that are not running or are being deleted, and pods whose probe answers no; the first one left is elected if it is running, not being deleted and far enough, and otherwise could not be looked up or probed and fails the search; ErrNoAvailableLeader exactly if none is left |
| Election.ElectedIsReady | pkg/election/election.go:174-213 | Whoever is elected is not the former leader, exists, runs, is not being deleted, and cartridge is configured in it or, before bootstrap, started |
| Election.LoadByPod | pkg/election/election.go:83-103 | The present leader is used exactly if its pod exists, runs, is not being deleted and cartridge is far enough; it counts as not ready exactly if it exists and one of these does not hold; no leader and a missing pod are errors of their own |
| Election.ElectionBySituation | pkg/election/election.go:42-81 | A race is lost exactly when an election was needed, a candidate was found and the copy was not current; no leader is available exactly when an election was needed and every candidate was passed over |
| Election.FirstLeaderIsElected | pkg/election/election.go:44-47 | A cluster without a leader gets the least eligible pod, persisted, before and after bootstrap |
| Election.ExcludesAtMostOne | pkg/election/election.go:160-163 | Excluding the former leader by name excludes one candidate at most |
| Election.FitLeaderIsKept | pkg/election/election.go:42-59 | A leader fit to lead is returned, and nothing is written |
| Election.ReplacedExactlyWhenUnfit | pkg/election/election.go:42-59 | A reconcile puts another leader in place of an elected one exactly when the cluster is bootstrapped, the leader pod exists and is found unfit, and the search finds one that the status does not name |
| Election.UnavailableLeaderIsReplacedIff | pkg/election/election.go:36-59 | The promised new election for an unavailable leader of a bootstrapped cluster, with a candidate to be found, takes place exactly if the leader pod still exists and can be probed; then the least eligible pod is elected and persisted, otherwise nothing is written |
| Election.MissingLeaderIsNotReplaced | pkg/election/election.go:88-91 | A leader pod that is not found is an error, bootstrapped or not |
| Election.DeletedLeaderBlocksElection | pkg/election/election.go:88-91 | A bootstrapped cluster of two instances in which the promise fails: the leader's pod is gone, the other could lead, and the call fails |
| Election.LeaderElection.FindNewLeaderInstance | pkg/election/election.go:114-187 | The nested loops return what the search function says |
| Election.LeaderElection.ElectLeaderInstance | pkg/election/election.go:61-81 | The leader is set on the copy and written against its version; a conflict is told apart from other failures |
| Election.LeaderElection.LoadLeaderInstance | pkg/election/election.go:83-103 | The effective leader is returned if it can lead, with the error of the first check that fails otherwise |
| Election.LeaderElection.GetLeaderInstance | pkg/election/election.go:42-59 | The present leader, a new election or an error, with its effect on store and copy |
| ClusterStatus.Cluster.GetLeader | apis/v1beta1/cluster_types.go:265-271 | A foreign leader takes precedence, else the elected one is named; there is no effective leader exactly when neither is |
| ClusterStatus.Cluster.SetLeader | apis/v1beta1/cluster_types.go:261-263 | Changes the leader of the copy and nothing else |
| ClusterStatus.Cluster.MarkBootstrapped | apis/v1beta1/cluster_types.go:273-275 | Sets the flag of the copy and nothing else |
| ClusterStatus.Cluster.SetPhase | apis/v1beta1/cluster_types.go:289-291 | Sets the phase of the copy and nothing else |
| ClusterStatus.Cluster.ResetStatus | apis/v1beta1/cluster_types.go:281-287 | Forgets the phase, keeps flag and leader |
| ClusterStatus.StatusStore.Update | pkg/reconciliation/reconciler.go:66-76 | The write appends a version exactly when the copy's version is current and the request arrives |
| ClusterStatus.WriteByCircumstances | pkg/election/election.go:67-76 | The history grows exactly if the request arrives at the version the copy is based on with something new; success and conflict are reported exactly in the circumstances they are about |
| Joining.NextStepMeansAllJoined | pkg/reconciliation/steps/role/join_instances.go:28-137 | NextStep means that every list succeeded and every pod below replicas of every listed StatefulSet that is not being deleted was there, running and not being deleted, and either had a UUID when the pass began or was joined by a successful call of this pass |
| Joining.NextStepIffAllSettle | pkg/reconciliation/steps/role/join_instances.go:53-136 | NextStep is returned exactly when every visit finds its pod up and the pod then has a UUID or is joined without error, each judged by the UUIDs reported when the loops come to it |
| Joining.HasJoinedMeansInTopology | pkg/reconciliation/steps/role/join_instances.go:130-136 | After such a pass all these pods are in the topology |
| Joining.UriTellsPod | internal/implementation/replicasets_manger.go:34-43 | Different pods of a cluster advertise different addresses |
| Joining.UriReadsBack | internal/implementation/replicasets_manger.go:34-43 | An address is the host name, a colon, and the port, which can be read back |
| Joining.CallsAreProper | pkg/reconciliation/steps/role/join_instances.go:78-111 | Every join call goes through the given leader, which at that time has a UUID or joins itself, for a visited pod that has none, under the alias and UUID of that pod's replicaset and with the settings of the role |
| Joining.IterateByPod | pkg/reconciliation/steps/role/join_instances.go:52-126 | Join is called at a visit exactly if the pod is up, its UUID was read and there is none, and the leader is that pod or one whose UUID was read and is there; a pod that is down or whose leader has no UUID is noted and passed, one with a UUID is passed, and a read that fails ends the loops with an error |
| Joining.CallByReply | pkg/reconciliation/steps/role/join_instances.go:112-124 | A successful call joins the pod and goes on, an unknown role sets the error phase and ends the run for good, every other reply is an error |
| Joining.CallsAreThoseDue | pkg/reconciliation/steps/role/join_instances.go:37-128 | The calls of a pass are those of its due visits, in the order of the loops, no more and no fewer |
| Joining.DueVisitIsCalled | pkg/reconciliation/steps/role/join_instances.go:78-111 | Every pod that is due when the loops come to it is called for at that visit |
| Joining.WaitingIsRequeued | pkg/reconciliation/steps/role/join_instances.go:130-134 | A pass in which nothing fails but some pod is not yet due is tried again in ten seconds |
| Joining.WalkReaches | pkg/reconciliation/steps/role/join_instances.go:37-52 | Unless a list fails, the loops reach every pod they are meant to reach |
| Joining.WalkIsMeant | pkg/reconciliation/steps/role/join_instances.go:37-52 | The loops visit no other pod |
| Joining.WalkNeedsLists | pkg/reconciliation/steps/role/join_instances.go:40-43 | Loops that end regularly listed every ordinal of the role: one failed list ends them |
| Joining.JoinInstancesStep.Reconcile | pkg/reconciliation/steps/role/join_instances.go:28-137 | The triple loop returns, does and calls what the function on values says |
| Topology.BootstrapSucceedsIff | pkg/topology/common.go:199-219 | The call reports success exactly when it reached a cartridge that is bootstrapped afterwards, by this call or an earlier one |
| Topology.AlreadyIsRecognised | pkg/topology/errors.go:26-29 | Cartridge's refusal of a second bootstrap is recognised |
| Topology.JoinErrorByReply | pkg/topology/common.go:51-71 | A join succeeds exactly with a result and no error; an unknown role and an instance that is joined already are recognised exactly by their texts |
| Topology.JoinByAnswer | pkg/topology/common.go:39-71 | A join call adds its own pod and no other, exactly if its reply is a success or it took effect all the same |
| Gates.GateOpensIff | pkg/reconciliation/steps/cluster/wait_for_roles_phase.go:21-34 | The gate opens exactly when some listing shows all roles at its phase and no earlier listing failed |
| Gates.ClosedGateByListings | pkg/reconciliation/steps/cluster/wait_for_roles_phase.go:21-34 | The run ends for good exactly if all listings succeed and none shows all roles at its phase; a listing that fails first is an error |
| Gates.IsAllRolesAtPhase | internal/controller/cluster.go:16-37 | True exactly if there is a role and all are at the phase; an error if the list fails |
| Gates.WaitForRolesPhase | pkg/reconciliation/steps/cluster/wait_for_roles_phase.go:21-34 | The loop over phases returns what the function says |
| Gates.GetLeaderStep | pkg/reconciliation/steps/common/get_leader.go:23-40 | A lost race and, before bootstrap, a lack of candidates are requeued; other failures are errors |
| Gates.LeaderGateBySituation | pkg/reconciliation/steps/common/get_leader.go:23-40 | The gate opens exactly with a leader, asks for another try exactly when the race was lost or, before bootstrap, every candidate was passed over, and is an error otherwise |
| Gates.FlagFollowsRemote | pkg/reconciliation/steps/cluster/bootstrap.go:23-45 | The flag is set only when the remote side is bootstrapped, the step goes on exactly when the flag is set, and neither is ever cleared |
| Gates.BootstrapRecovers | pkg/reconciliation/steps/cluster/bootstrap.go:28-44 | On a cartridge bootstrapped before, a call that reaches it sets the flag and goes on |
| Gates.BootstrapStep | pkg/reconciliation/steps/cluster/bootstrap.go:23-45 | Status, remote side and verdict are as the function on values says |
| Gates.BootstrapByReply | pkg/reconciliation/steps/cluster/bootstrap.go:28-44 | By the reply: success and "already bootstrapped" set the flag and go on; missing routers or storages end the run for good at UnableToBootstrap; every other failure is an error and leaves the status alone |
| Gates.WaitByCluster | pkg/reconciliation/steps/common/wait_for_cluster_bootstrapped.go:19-26 | Only a cluster known to be bootstrapped lets the run go on; otherwise it is tried again in ten seconds |
| Gates.ReadyGateIsSoundIff | pkg/reconciliation/steps/role/ensure_cartridge_ready.go:32-76 | An open gate means as many ready pods as the role asks for, exactly when the product of the counts is below 2^31 |
| Gates.ReadyGateOverflows | pkg/reconciliation/steps/role/ensure_cartridge_ready.go:43-46 | With 65536 replicasets of 65536 replicas the gate opens on no pods |
| Gates.IsCartridgeReady | pkg/reconciliation/steps/role/ensure_cartridge_ready.go:32-76 | True exactly if the gate is open, an error exactly if enough pods are listed and a probe fails; the shown count of ready pods is set exactly when all probes were made |
| Gates.EnsureCartridgeReady | pkg/reconciliation/steps/role/ensure_cartridge_ready.go:17-30 | Goes on exactly if the gate is open, fails exactly if a probe does, and is otherwise tried again in ten seconds |
| Gates.ReadyCountByPods | pkg/reconciliation/steps/role/ensure_cartridge_ready.go:50-71 | The count is that of the pods that run, are not being deleted, and in which cartridge has started |
| Gates.FailingProbeByPods | pkg/reconciliation/steps/role/ensure_cartridge_ready.go:53-64 | A probe fails exactly if it does in a pod that runs and is not being deleted |
| Gates.ReadyPodsReadBack | apis/v1beta1/role_types.go:179-181 | The shown text holds the count before and the expected number after the slash |
| Steps.PhaseIsWitness | pkg/reconciliation/reconciler.go:22-76 | For every step list and run, the phase left is the old one untouched, the reset one, the error phase of the gate that stopped the run, or one set by a step before which every gate passed |
| Steps.LastPhaseIsLeft | pkg/reconciliation/reconciler.go:22-76 | The phase left by a run is the error phase of the gate that gave up on a misconfiguration, and otherwise that of the last executed step that sets or resets it |
| Steps.ObjectIsFetched | pkg/reconciliation/reconciler.go:22-76 | A run has an object to write to exactly if it had one or a fetching step went through |
| Steps.PhasesProveGates | controllers/role_controller.go:111-143 | For the three lists, the phases that tell of a gate are written only by runs that passed all steps before it |
| Configuration.ConfigRunEndsReadyIff | pkg/reconciliation/steps/cartridge/configure.go:16-43 | A run that comes to the configure gate ends at Ready exactly when reading and parsing succeed, the desired configuration is not in place already, and applying it succeeds; otherwise it ends at Applying |
| Configuration.UnchangedConfigStaysApplying | pkg/reconciliation/steps/cartridge/configure.go:29-33 | With nothing to change the step reports success and the run ends at Applying |
| Configuration.ConfigureStep | pkg/reconciliation/steps/cartridge/configure.go:16-43 | The verdict is as the function on values says, and the configuration is sent exactly when it was read, parsed and found to differ |
| Configuration.ConfigureByCase | pkg/reconciliation/steps/cartridge/configure.go:16-43 | A failed read, parse or apply is an error, a configuration already in place ends the run for good |
| Steps.Run | pkg/reconciliation/reconciler.go:22-76 | The loop executes steps up to the first that stops it, leaves their combined effect, and writes the status unless the object is missing or released; a failed write is reported with a delay, else the result and error of the step that stopped the run, with a delay if it is a bare error, and nothing if the list was run through |
| Steps.ReportByOutcome | pkg/reconciliation/reconciler.go:40-63 | What the work queue is told in each of the four outcomes |
| Steps.RolePhasesNameGates | controllers/role_controller.go:111-143 | A role run that leaves WaitingForBootstrap, ConfiguringWeights or Ready passed, in this order: fetching, the cluster, creating, updating, the leader, readiness, joining, role configuration; then the wait for bootstrap; then the weights |
| Steps.ClusterPhasesNameGates | controllers/cluster_controller.go:122-141 | A cluster run that leaves FailoverConfiguring passed the deletion check, the service, the roles, the leader and the bootstrap in this order, one that leaves Ready also failover |
| Steps.ConfigPhasesNameGates | controllers/cartridgeconfig_controller.go:108-120 | A configuration run at Applying saw the cluster bootstrapped before it asked for a leader; at Ready it applied as well |
| Names.ParseOfPrint | internal/implementation/replicasets_manger.go:83-88 | Every int32 ordinal printed into a label is read back |
| Names.DashedInjective | apis/v1beta1/role_types.go:159-161 | `name-ordinal` determines name and ordinal for ordinals that are not negative, whatever dashes and digits the name contains |
| Names.PodNameInjective | pkg/utils/statefulsets.go:7-9 | A pod name determines role, replicaset and pod |
| Names.NegativeOrdinalsCollide | apis/v1beta1/role_types.go:159-161 | With a negative ordinal names can collide |
| Maps.MergeMaps | pkg/utils/maps.go:3-17 | The result has the keys of all maps, each with the value of the last map that holds it |
| Labels.KeysDiffer | pkg/k8s/labels_manager.go:29-66 | The six label keys differ, whatever the namespace |
| Labels.SelectorsAreExact | pkg/k8s/labels_manager.go:74-87 | The selectors match exactly the StatefulSets of the role in its cluster, and among them exactly those of the ordinal |
| StatefulSets.StatefulSet.SyncStatefulSet | internal/implementation/replicasets_manger.go:165-275 | On success the object is as the sync function says and the flag is true exactly when it differs from before, nil and empty maps told apart; on failure it is unchanged and the flag false |
| StatefulSets.SyncConverges | internal/implementation/replicasets_manger.go:165-275 | A second sync with the same role succeeds and alters nothing |
| StatefulSets.SyncByField | internal/implementation/replicasets_manger.go:202-272 | A successful sync, field by field: replicas at least what the role asks for and what there was, and equal to one of them; readiness delay, strategy with its settings and annotations taken over; controlled by the role; the template refreshed exactly if the label's hash is another; the rest as it was |
| StatefulSets.SyncFailsIff | internal/implementation/replicasets_manger.go:177-206 | A sync fails exactly if the template cannot be hashed or the first controller reference is another object's |
| StatefulSets.RoleLabelsSurvive | internal/implementation/replicasets_manger.go:183-195 | The StatefulSet's labels are the role's, except for the keys the operator owns, and nothing else |
| StatefulSets.TemplateLabelsSurvive | internal/implementation/replicasets_manger.go:197-200 | The pod template's labels are its own in the role and those of the StatefulSet, which take precedence, and nothing else |
| StatefulSets.ReplicasAreTheMostAskedFor | internal/implementation/replicasets_manger.go:208-212 | Over any sequence of role edits and syncs, replicas are the largest number asked for by the first object and by the roles whose sync succeeded |
| StatefulSets.ReplicasNeverDecrease | internal/implementation/replicasets_manger.go:208-212 | Hence they never decrease |
| StatefulSets.SystemLabelsPrevail | internal/implementation/replicasets_manger.go:183-200 | The operator's labels end up in the StatefulSet and its pod template whatever labels the user put on the role or template |
| StatefulSets.ControlIsTaken | pkg/k8s/resources_manager.go:58-69 | Taking control without an error ends in control, and changes the references exactly if there was no control before |
| StatefulSets.OtherOwnersStay | pkg/k8s/resources_manager.go:58-69 | The reference taken or refreshed is the role's own; those to other objects stay where they are |
| StatefulSets.HashRefinesCopyingIff | internal/implementation/replicasets_manger.go:242-265 | Over any sequence of role edits and syncs from creation on, every successful sync leaves the current template with merged labels, exactly if the hash is collision free |
| StatefulSets.FiniteHashMissesAnEdit | pkg/utils/hash.go:11-25 | A hash with finitely many values does not meet that condition |
| Replicasets.CreateCoversOrdinals | internal/implementation/replicasets_manger.go:45-65 | Creating alters no stored StatefulSet, and on success every ordinal has one under its own name that the ordinal and role selectors match |
| Replicasets.CreateOneByAnswer | internal/implementation/replicasets_manger.go:46-62 | For an ordinal an object is stored exactly if the list showed none and did not fail except with not-found, hashing works, the name is free and the write arrives; the ordinal succeeds if one was shown or the write is answered with success |
| Replicasets.SecondCreateDoesNothing | internal/implementation/replicasets_manger.go:46-52 | A second run that sees the objects creates none |
| Replicasets.FoundByOrdinal | internal/implementation/replicasets_manger.go:83-115 | A StatefulSet found by an ordinal is the one of that ordinal; its label, selector and template hold the ordinal's UUID, and the selector is contained in the template labels |
| Replicasets.CoherentForever | internal/implementation/replicasets_manger.go:110-115 | Over any sequence of creations and updates with any user labels, failures and stale lists, beside any StatefulSets of other people: none is lost, none of ours changes its selector or what else is fixed, each carries its identity in labels, template and selector, and other people's stay as they are |
| Replicasets.FoundForever | internal/implementation/replicasets_manger.go:25-32 | After such a sequence a StatefulSet found for an ordinal is still found for it, with the same UUID, whatever else was edited on the role |
| Replicasets.UpdateResyncs | internal/implementation/replicasets_manger.go:67-99 | An update that succeeds on a current list leaves every listed object as a sync makes it, and the others alone |
| Replicasets.FilteredIffSelected | pkg/k8s/resources_manager.go:93-102 | A list by selector keeps exactly the matching objects |
| Replicasets.UpdateBringsRoleInLine | internal/implementation/replicasets_manger.go:67-99 | An update that succeeds on a list of everything leaves every StatefulSet of the role as a sync makes it of what it was |
| Replicasets.SecondUpdateWritesNothing | internal/implementation/replicasets_manger.go:147-163 | Another update over the objects as they are then writes nothing and succeeds |
| Replicasets.UpdateOneByAnswer | internal/implementation/replicasets_manger.go:147-163 | A listed object is replaced exactly if the sync changed it, the store still holds the listed copy and the write arrives; the update goes on if there was nothing to change or the write is answered with success |
| Replicasets.ResyncFailsIff | internal/implementation/replicasets_manger.go:81-92 | A listed object cannot be synced exactly if its ordinal label cannot be read, hashing fails or another object is in control |
| Replicasets.UuidsDiffer | internal/implementation/replicasets_manger.go:25-32 | With UUIDs injective in their seed, different replicasets have different UUIDs |
| Replicasets.CreateStatefulSets | internal/implementation/replicasets_manger.go:45-65 | The loop creates what the function on values says, and stops where it says |
| Replicasets.CreateStatefulSet | internal/implementation/replicasets_manger.go:101-145 | The new object is a blank one with the selector and the fixed settings, synced once |
| Replicasets.NewSetIsAsAsked | internal/implementation/replicasets_manger.go:110-142 | It is made unless hashing fails: controlled by the role, with the number of replicas and the claims the role asks for, the cluster's service, parallel management, one revision, claims retained on deletion and scaling, a selector of cluster, role, name and UUID only, and with a collision-free hash the role's template |
| Replicasets.UpdateStatefulSets | internal/implementation/replicasets_manger.go:67-99 | The loop updates what the function on values says, and reports completeness whenever it does not fail |
| Replicasets.UpdateStatefulSet | internal/implementation/replicasets_manger.go:147-163 | An object is sent only if the sync changed it |
| Uuids.JoinedUnderOwnUuid | pkg/reconciliation/steps/role/join_instances.go:96-111 | Every instance is joined under the UUID in the label and the selector of its own StatefulSet |
| Uuids.ConfiguredUnderOwnUuid | pkg/reconciliation/steps/role/configure_vshard_roles.go:47-60 | Roles are configured under that same UUID |
| Weights.CallsAreExact | pkg/reconciliation/steps/role/set_vshard_weights.go:20-45 | Weights go to UUIDs of this role's ordinals only; a pass that succeeds listed every ordinal and called exactly those with a StatefulSet that is not being deleted |
| Weights.SucceedsIff | pkg/reconciliation/steps/role/set_vshard_weights.go:20-45 | A pass succeeds exactly if every list does and none of its calls fails |
| Weights.SetVShardWeights | pkg/reconciliation/steps/role/set_vshard_weights.go:14-46 | The calls are those the function lists, each with the role's weight, and NextStep is returned exactly if none failed |
| VShardRoles.VShardRolesToMap | pkg/utils/vshard.go:9-21 | The map holds exactly the roles and their direct dependencies |
| VShardRoles.IsVShardRolesEquals | pkg/utils/vshard.go:5-7 | True exactly if both lists enable the same roles |
| VShardRoles.ExtensiveAndMonotone | pkg/utils/vshard.go:9-21 | A list enables its own roles, and more roles never enable less |
| VShardRoles.Idempotent | pkg/utils/vshard.go:9-21 | In a closed hierarchy, a list of exactly the enabled roles counts as equal |
| VShardRoles.SameIffMutuallyCovered | pkg/utils/vshard.go:5-7 | In a closed hierarchy, lists count as equal exactly when each enables all roles of the other |
| VShardRoles.ReportsRecognisedIff | pkg/utils/vshard.go:5-21 | Every report between the desired roles and what they enable counts as equal, exactly if the hierarchy is transitively closed |
| VShardRoles.DirectDependenciesDiffer | pkg/utils/vshard.go:15-17 | A chain of three roles with direct dependencies only is a hierarchy in which it does not |
| VShardRoles.CompleteMeansUpToDate | pkg/reconciliation/steps/role/configure_vshard_roles.go:21-76 | A pass that returns NextStep leaves every visited replicaset with roles that count as equal to the desired ones |
| VShardRoles.StopsAreExact | pkg/reconciliation/steps/role/configure_vshard_roles.go:23-38 | The loops stop exactly at the ordinals in range with a listed StatefulSet that is not being deleted, and at failed lists |
| VShardRoles.NextStepMeansConfigured | pkg/reconciliation/steps/role/configure_vshard_roles.go:17-77 | NextStep means that every list succeeded and every ordinal with a StatefulSet not being deleted has roles that count as the desired ones |
| VShardRoles.EditsAreThoseDue | pkg/reconciliation/steps/role/configure_vshard_roles.go:40-66 | A pass edits exactly those replicasets whose hierarchy and roles were read and whose roles are not the desired ones, whatever fails in between |
| VShardRoles.CompleteIffAllSucceed | pkg/reconciliation/steps/role/configure_vshard_roles.go:21-76 | A pass is complete exactly if every list and read succeeds and every replicaset has the desired roles or gets them without error |
| VShardRoles.IncompleteIsRequeued | pkg/reconciliation/steps/role/configure_vshard_roles.go:70-74 | Any other pass is tried again in ten seconds |
| VShardRoles.SecondPassEditsNothing | pkg/reconciliation/steps/role/configure_vshard_roles.go:59-66 | After such a pass, another over the same replicasets makes no edit, whatever its lists and reads answer |
| VShardRoles.UnrecognisedReportsAreEditedForever | pkg/reconciliation/steps/role/configure_vshard_roles.go:59-66 | While reports are not recognised, n passes over any replicasets make n edits of each, whether the edits succeed or not |
| VShardRoles.OpenHierarchyNeverSettles | pkg/utils/vshard.go:15-17 | In every hierarchy that is not closed some desired roles have an honest report with which every pass edits every outdated replicaset again |
| VShardRoles.SettlesIffClosed | pkg/reconciliation/steps/role/configure_vshard_roles.go:17-77 | After a pass that returns NextStep a further one over the same replicasets always edits nothing, exactly in closed hierarchies |
| VShardRoles.EditsAreOwn | pkg/reconciliation/steps/role/configure_vshard_roles.go:47-60 | Every edit sets the desired roles of a visited replicaset of this role, under the UUID it joins with |
| VShardRoles.ConfigureVShardRoles | pkg/reconciliation/steps/role/configure_vshard_roles.go:17-77 | The nested loops leave the remote side and return the verdict that the function on values says; failures are passed over and requeued |

## Left out

- Progress: one run that gets to Ready is exhibited, but not that every run does; nothing bounds how long pods or the network misbehave.
- Deletion of objects, finalizers beyond their part in the status write, and scaling down.
- StatefulSets.StatefulSet.SyncStatefulSet: does not model that replicas, rolling-update parameters, labels and annotations are shared by pointer with the role in memory, because neither is changed afterwards; maps and pointers are values here.
- Gates.WaitForRolesPhase: does not model which roles the cluster's label selector lists; a listing is any list of roles.
- Weights.SetVShardWeights: does not model the Lua code behind a weight call, nor which of its errors it was; each call succeeds or fails.
- Role statuses change only through role reconciles in the protocol; the phase of CartridgeConfig objects is not kept there, as nobody reads it.
- `SyncClusterWideServiceStep`, `ConfigureFailoverStep` and `CheckDeletionStep`: gates that pass or stop; their field syncing is simpler than that of StatefulSets.
- Configuration.ConfigureStep: does not model the subset test, whose answer is an input, nor whether a configuration converges, because the test compares values decoded from YAML and JSON, which differ in number types.
- The Kubernetes client, caches and watches, pod exec, Lua, tarantoolctl, logging and events: remote calls and reads are inputs with success and failure outcomes.
- API-server defaulting, outside edits of managed labels or status, lost volumes, and changes of the foreign leader during a run.
- The hash and UUID computations themselves.
