# Verified model of the Bare Metal Cloud provider for Cluster API

The provider runs two Kubernetes controllers. One keeps a `BMCMachine` in step with a
bare-metal server, the other keeps a `BMCCluster` in step with a /31 block of public IP
addresses. Both call the BMC API, change the object in memory step by step, and persist it
with a deferred patch when the reconcile returns, however it returns.

The project models both controllers, the cloud behind the API and the environment around
them as one transition system, and proves what holds over every run of it.

## How the model is built

- `Api`: the objects, replies, calls, events and results. Statuses, annotation keys and
  finalizers are enumerations with one constructor per token the code names and one for
  every other text.
- `MachineModel`, `ClusterModel`: one reconcile as a function on values.
- `MachineReconciler`, `ClusterReconciler`, `Ipv4`, `WakeUp`, `DeepCopy`: the imperative code.
  Context objects with mutable fields, the in-place address byte, the append loops and the
  generated copies on a heap; each method is proved against its function or its view.
- `TransitionSystem`: any number of machines and clusters, the servers and blocks in the
  cloud, the workload nodes, a log of calls, and ledgers of lost servers and blocks. A run is
  a sequence of labels that carry every choice of the environment.
- `MachineOutcomes`, `ClusterOutcomes`: what one reconcile sends, stores, reports and returns,
  said of the object, its surroundings and the reply alone; `StatusEvidence`: every recorded
  status has its evidence in the log of the run.
- `MachineFacts`, `ServerInvariant`, `ServerTheorems`: identity, ownership, finalizers and
  the account of every server.
- `BlockInvariant`, `BlockTheorems`, `BlockDeletion`: the endpoint, the account of every IP
  block, and what deleting a cluster does to its block.
- `ControllerOrder`: the order between the two controllers, and the two faults that break it.
- `MachineLifecycle`, `NodeBinding`, `Convergence`, `Polling`: readiness, refinement of a
  lifecycle automaton, node binding, progress, and histories of polls and creates.
- `ExampleRun`: a run that meets the hypotheses of these results together, and runs into the
  states the code should not reach.

## What the environment may do

In every reconcile the environment chooses how far the lookups get, whether the bootstrap
secret is there, whether the call fails in transport, loses its body, answers any status
code with any decodable or undecodable body, what a node lookup finds, and which of the two
requests of the deferred patch arrive: metadata and spec travel together, the status
subresource on its own. Between reconciles it registers objects, marks them deleted, edits
foreign finalizers, and flips the cluster's infrastructure flag. A nil annotation map, a
malformed CIDR, a nil provider id and an unanswered DELETE are not excluded: they end the
reconcile in a panic, after which the deferred patch still runs.

Assumed of it: a reconcile reads the last stored object and is atomic; the cloud hands out
fresh, non-empty ids and a decoded 2xx create reply names what was created or nothing;
objects start without recorded ids and with an empty status; the infrastructure flag is only
raised for a ready BMCCluster; a write to a node succeeds only if the node carries no provider
id or already that one, since Kubernetes does not let `spec.providerID` change once it is set.
A create reply may carry any of the fields that only Kubernetes sets. A statement that needs a
restriction of the run asks it of the steps of the one object it is about, and names the guard
of the step that breaks the property; what happens to other objects is never restricted.

## What the code does not keep

A property that fails comes with an input that shows it and with its exact condition.

- Ready is forged by a create reply that says `ready` and whose status patch arrives, because
  the whole status is overwritten (`CreateReplyCanForgeReady`); the machine may then be ready
  without any server recorded (`ForgedReadyIsReachable`). Ready is sound for a machine throughout
  exactly the runs without such a reply of its own (`ReadyIsSoundIffClean`). Address agreement and
  "bound means ready" are lost to create replies in the same way (`AddressesAgreeIffReplied`,
  `NodeRefMeansReadyIffReplied`).
- Ready can fall, a recorded failure can be erased and a node reference can be lost, as long as no
  server is recorded: a stored create reply overwrites all three (`ReadyCanFall`,
  `FailureCanBeErased`), and nothing else does (`ReadyFallsIff`, `FailureIsErasedIff`,
  `NodeRefChangesIff`). With a server recorded they are kept in every run
  (`ServedMachineEndures`).
- A server can be requested before its cluster's block is recorded. Two faults do this: a torn
  allocation, whose status arrives while its address does not
  (`TornAllocationBreaksTheOrder`), and an allocation reply without an id, which leaves an
  address recorded and its block lost (`AnonymousBlockBreaksTheOrder`). The first is exactly
  what leaves a cluster ready without an address (`ReadyHasAddressIffUntorn`), the second
  exactly what leaves an address without a block (`AddressHasBlockIffNamed`); without both,
  servers follow the block (`ServersFollowTheBlock`), without the first they still follow the
  address (`ServersFollowTheAddress`).
- A DELETE can name no block: the cluster's delete path checks the status but not the id
  (controllers/bmccluster_controller.go:328-329), unlike the machine's
  (controllers/bmcmachine_controller.go:454). `BareDeletionIsReachable` gives the runs,
  `UnassignedHasBlockIffNeverBared` the exact condition for the state behind them, and in all
  other runs every DELETE for the cluster names a block of its own (`DeletionsNameABlock`).
- An unassigned block leaks when it is recorded in any other status at its cluster's deletion, for
  instance as stale after one outage (`StaleBlockIsLeaked`): a deleted cluster is not polled any
  more, so that the recorded status decides for good (`StatusAtDeletionDecides`,
  `DeletionSettlesBlock`).
- Two machines whose names differ only in dots, slashes and dashes are looked up as the same node,
  exactly then (`HostnamesCollideIff`). The node carries the server of the one that wrote it first,
  for good (`NodesAreWrittenOnce`, `NodeNamesItsFirstWriter`), and the other ends bound to a node
  that names a foreign server (`BoundToForeignNodeIsReachable`).
- A failed write of a node's provider id is never repeated (`BindingLeavesNodeUnwrittenIff`,
  `UnwrittenNodeStaysUnwritten`, `UnwrittenNodeIsReachable`).
- Polls that report the status `error` are events every time, since the recorded status
  becomes `irreconcilable` (`ErrorsAreReportedEveryTime`).
- A poll is idempotent in every state but one, in which it panics on a nil provider id
  (`RepeatedPollIsIdleUnlessStranded`); no reachable machine that has a server is in it
  (`NoServerIsStranded`).
- Both controllers can panic (`MachinePanicsIff`, `ClusterPanicsIff`). An object whose annotation
  map is nil never gets past this: it asks for a server or a block every time and records none
  (`NilMapCreates`, `NilMapIsNeverServed`, `NilMapAllocates`).
- The last byte of an unaligned address can leave its /31 block or wrap
  (`NextStaysInBlockIffAligned`).
- Deleting a machine gives the finalizer up whatever the cloud answers, so a failed
  deprovision loses the server (`DeletionSettlesServer`). The comment that ends
  `reconcileDelete`, that the server is then orphaned or cleaned up, is true of that exit only.
- The cluster's poll reports status code 500 with the reason and wording of a denied access
  (controllers/bmccluster_controller.go:274); the model follows the code. README.md:146 of
  the provider speaks of webhook logic in `api/v1beta1`; there is none there.

## Model

| member | source | states |
|---|---|---|
| ServerTheorems.ServersAreConserved | controllers/bmcmachine_controller.go:267-330 | in every state of every run, the servers ever created for a machine are partitioned into the one it records, those deprovisioned with 2xx, and those lost; as sets and in number |
| ServerTheorems.EveryLossIsCharged | controllers/bmcmachine_controller.go:150-155 | the ledger of losses never changes an entry, and each new entry names what happened in that step: lost or undecodable reply, empty id, nil annotation map, lost metadata patch, failed deprovision, orphan skipped |
| ServerTheorems.ExtraServersAreCreateFaults | controllers/bmcmachine_controller.go:214-217 | a machine has at most one server more than faults during its creates |
| ServerTheorems.FaultFreeRunCreatesAtMostOneServer | controllers/bmcmachine_controller.go:208-217 | a run in which no create of a machine meets a fault creates at most one server for it |
| ServerTheorems.ServersAreNotShared | controllers/closures.go:65-73 | two machines never record the same server |
| ServerTheorems.CallsStayWithTheOwner | controllers/bmcmachine_controller.go:337-460 | every poll and deprovision in the log of any run names a server created for the machine it was sent for |
| ServerTheorems.RecordedServerIsGuarded | controllers/bmcmachine_controller.go:447-505 | a live machine with a server holds its finalizer, and one that disappears has attempted a deprovision or is recorded as orphaned |
| ServerTheorems.DeleteReleasesFinalizer | controllers/bmcmachine_controller.go:447-451 | a persisted delete reconcile removes exactly the machine finalizer, and the object goes when no other is left |
| ServerTheorems.DeletionSettlesServer | controllers/bmcmachine_controller.go:447-506 | a delete reconcile ends with the recorded server released exactly if it was or a due deprovision was answered 2xx; a machine that goes away with it unreleased has lost it, with the right cause |
| ServerTheorems.ProviderIDSpellsServer | controllers/closures.go:69-73 | in every reachable state a recorded server id comes with the provider id that spells it |
| ServerTheorems.MachinePanicsIff | controllers/bmcmachine_controller.go:131-330 | in reachable states a machine reconcile panics exactly on a live machine whose cluster names no infrastructure or on a delivered create with a nil annotation map |
| ServerInvariant.RunKeepsServersInv | controllers/bmcmachine_controller.go:114-186 | identity, ownership, finalizer evidence and the account of every server hold in every state of every run |
| ServerInvariant.NewServerIsAccounted | controllers/bmcmachine_controller.go:319-330 | a server just created is recorded exactly when none of the create faults happened, and is charged to the fault otherwise |
| ServerInvariant.ReconcileIsLawful | controllers/bmcmachine_controller.go:189-218 | what a reconcile sends and leaves stored, whichever part of the patch arrives |
| MachineFacts.RecordedIdentityIsKept | controllers/bmcmachine_controller.go:214-217 | no reconcile changes a recorded server id or its provider id |
| MachineFacts.CallsNameTheRecordedServer | controllers/bmcmachine_controller.go:244-268 | a create is only sent for a live machine without a server and with ready infrastructure; polls and deprovisions name the recorded one |
| MachineFacts.IdentityComesFromCreateReply | controllers/bmcmachine_controller.go:319-330 | a machine gets an id exactly from a delivered create reply it can write down, together with provider id and finalizer |
| MachineFacts.FinalizerMoves | controllers/bmcmachine_controller.go:192-195 | live reconciles only add the finalizer; the delete that drops it has sent a deprovision or found an orphan or nothing to tear down |
| MachineOutcomes.CallsIff | controllers/bmcmachine_controller.go:189-460 | exactly when a create, a poll and a deprovision is sent, and what it names |
| MachineOutcomes.ServerIsRequestedIff | controllers/bmcmachine_controller.go:197-247 | in runs a server is requested exactly for a live machine without one whose infrastructure and bootstrap secret are ready and which has its block if it needs one |
| MachineOutcomes.SilentReconcile | controllers/bmcmachine_controller.go:133-247 | a reconcile that sends nothing changes the finalizer at most, and fails exactly on failed lookups and on a secret without a value |
| MachineOutcomes.WithoutClusterNothingHappens | controllers/bmcmachine_controller.go:161-182 | while its BMCCluster is not there, nothing at all is done for a live machine |
| MachineOutcomes.CreateStores | controllers/bmcmachine_controller.go:268-330 | the status, provider id and annotations a create leaves for every answer |
| MachineOutcomes.CreateReturns | controllers/bmcmachine_controller.go:268-330 | which answers to a create are reported as what, and exactly which are retried when |
| MachineOutcomes.PollDescribes | controllers/closures.go:107-118 | the description of the server a poll leaves, each of its fields the reply's own or the recorded one, and the external addresses the reply's public ones |
| MachineOutcomes.PollJudges | controllers/bmcmachine_controller.go:347-437 | the failure a poll records, the node it binds by name and uid, and that it touches nothing else |
| MachineOutcomes.PollReports | controllers/bmcmachine_controller.go:337-437 | the events of a poll for every answer and node lookup |
| MachineOutcomes.PollReturns | controllers/bmcmachine_controller.go:337-443 | exactly which answers to a poll are polled again when, and which end in an error or a panic |
| MachineOutcomes.DeprovisionStores | controllers/bmcmachine_controller.go:453-505 | a deprovision is recorded as irreconcilable exactly on 400 and 401, as orphaned exactly on 403, and changes nothing else but the finalizer |
| MachineOutcomes.DeprovisionReturns | controllers/bmcmachine_controller.go:453-505 | the events of a deprovision and how each answer to it returns |
| MachineOutcomes.PatchPartsArriveAlone | controllers/bmcmachine_controller.go:150-155 | metadata and spec are stored exactly with the one request of the deferred patch, the status exactly with the other |
| MachineOutcomes.HostnameIsKeptIff | controllers/closures.go:177-180 | a name is its own host name exactly without dots and slashes, and every host name is such a name |
| StatusEvidence.MachineStatusHasEvidence | controllers/bmcmachine_controller.go:268-505 | in every reachable state a machine is recorded in a status that one of its own calls was answered with |
| StatusEvidence.OrphanedMeansDenied | controllers/bmcmachine_controller.go:374-380 | a machine is recorded as orphaned only after access to its server was denied to it or it was reported so |
| StatusEvidence.SkippedServersWereDenied | controllers/bmcmachine_controller.go:454 | a server given up without a deprovision was denied to its machine, or reported orphaned to it, in that run |
| MachineLifecycle.ReadyIsSoundIffClean | controllers/bmcmachine_controller.go:411-437 | a machine, when ready, has a server that an earlier 2xx poll reported powered on, in every state of a run, exactly when no stored create reply of its own says ready |
| MachineLifecycle.ReadyMeansPolledOn | controllers/bmcmachine_controller.go:411-437 | without such a reply of its own a ready machine has a server, and an earlier 2xx poll of that very server reported it powered on |
| MachineLifecycle.ReadinessIsEarned | controllers/closures.go:204-205 | a reconcile leaves a machine ready exactly when it was, or when the status patch arrives and a poll delivered the server powered on or a create reply said ready |
| MachineLifecycle.CreateReplyCanForgeReady | api/v1beta1/bmcmachine_types.go:191-198 | a machine without a server takes its readiness from a create reply that is stored, whether or not an id gets recorded with it, and no poll backs it |
| ExampleRun.ForgedReadyIsReachable | controllers/bmcmachine_controller.go:327-329 | a run whose create reply says ready ends in a ready machine that was never polled, without any server recorded if only the status patch arrives |
| MachineLifecycle.ReconcileKeepsStatus | controllers/closures.go:103-118 | readiness, node, failure and address agreement of a machine with a server survive every reconcile |
| MachineLifecycle.AddressesAgreeIffReplied | controllers/closures.go:204-213 | a machine that is ready and powered on lists exactly its public addresses, in every state of a run, exactly when every stored create reply of its own does |
| MachineLifecycle.AddressesAlwaysAgree | controllers/closures.go:204-213 | in such runs the addresses are the public ones, one by one and in order |
| MachineLifecycle.NodeRefMeansReadyIffReplied | controllers/bmcmachine_controller.go:429-437 | a machine is bound only when ready, in every state of a run, exactly when every stored create reply of its own has it so |
| MachineLifecycle.StepRefinesLifecycleIff | controllers/bmcmachine_controller.go:114-218 | for a machine that is not ready without a server, a step is a step of the automaton Absent, NoServer, Provisioned, Ready, Gone or a stutter, except exactly its reconcile that stores a create reply saying ready |
| NodeBinding.NodesNameTheirMachine | controllers/closures.go:157-165 | in every reachable state a provider id written to a node names the server of a machine looked up as that node |
| NodeBinding.ReferenceNamesTheNode | controllers/closures.go:133-154 | a node reference that a machine with a server comes to have names the node it is looked up as, and the uid found there |
| NodeBinding.SoleUserOwnsItsNode | controllers/closures.go:135-165 | without a second machine of the same host name in the cluster, a written node carries that machine's own provider id |
| NodeBinding.HostnamesCollideIff | controllers/closures.go:177-180 | two machine names are looked up as the same node exactly when they differ in dots, slashes and dashes only |
| NodeBinding.DistinctNamesCanShareANode | controllers/closures.go:177-180 | "a.b" and "a-b" are such names |
| NodeBinding.NodesAreWrittenOnce | controllers/closures.go:157-169 | no later run changes the provider id of a written node |
| NodeBinding.NodeNamesItsFirstWriter | controllers/closures.go:123-169 | a written node carries the id of a machine's server exactly when that machine wrote it first, and otherwise that of another machine looked up as the same node, which did |
| ExampleRun.BoundToForeignNodeIsReachable | controllers/closures.go:123-180 | a run in which the machine "a-b" ends bound to a node that carries, from then on in every run, the server of the machine "a.b" |
| NodeBinding.NodeIsWrittenOnlyWhenBinding | controllers/closures.go:123-170 | exact condition under which a node's provider id is written |
| NodeBinding.BindingLeavesNodeUnwrittenIff | controllers/closures.go:137-169 | a stored binding leaves the node unwritten exactly when the node is found and the write to it fails |
| NodeBinding.UnwrittenNodeStaysUnwritten | controllers/closures.go:124-169 | a node left unwritten when its machine was bound stays so for the rest of the run, as long as that machine is its sole user |
| ExampleRun.UnwrittenNodeIsReachable | controllers/closures.go:124-169 | a run to a bound machine whose node is unwritten, and no later run with a sole user ever writes it |
| MachineLifecycle.LifecycleIsMonotone | controllers/bmcmachine_controller.go:189-218 | over any run without a stored create reply of its own that says ready, a machine moves along the automaton; Ready never falls, and from the server on failures and node bindings are never taken back |
| MachineLifecycle.ServedMachineEndures | controllers/bmcmachine_controller.go:214-217 | once a machine has its server, id, provider id, Ready, failures, node and agreement of addresses are kept over every later run, whatever is replied to anybody in it |
| MachineLifecycle.NilMapIsNeverServed | controllers/closures.go:69-73 | a machine whose annotation map is nil never gets a server recorded over any run |
| MachineOutcomes.NilMapCreates | controllers/closures.go:69-73 | such a machine asks for a server every time, and panics on every one it gets |
| MachineLifecycle.ReadyFallsIff | controllers/bmcmachine_controller.go:327-329 | Ready falls in a step exactly when a create reply that does not say ready is stored over it |
| MachineLifecycle.FailureIsErasedIff | controllers/bmcmachine_controller.go:327-329 | a recorded failure is erased exactly when a create reply without one is stored over it |
| MachineLifecycle.NodeRefChangesIff | controllers/bmcmachine_controller.go:327-329 | a node reference changes exactly when a create reply with another, or none, is stored over it |
| ExampleRun.ReadyCanFall | controllers/bmcmachine_controller.go:327-329 | a run in which a forged Ready, its metadata patch lost, falls with the next create |
| ExampleRun.FailureCanBeErased | controllers/bmcmachine_controller.go:287-329 | a run in which a successful create erases the failure a rejected create recorded |
| Convergence.RankNeverRises | controllers/bmcmachine_controller.go:189-218 | no step, whatever fails and whatever a create reply claims, moves a machine that is not ready without a server away from ready |
| Convergence.SuccessfulCreateLowersRank | controllers/bmcmachine_controller.go:319-330 | a persisted successful create takes a machine to provisioned with the delivered id, or straight to ready if its reply says so |
| Convergence.PoweredOnPollReachesReady | controllers/bmcmachine_controller.go:398-443 | a persisted powered-on poll of a machine with a server makes it ready |
| Convergence.CreateThenPowerOnConverges | controllers/bmcmachine_controller.go:189-443 | any run with a successful create and later a powered-on answer that arrives ends ready or gone, whatever lies before, between and after |
| ExampleRun.ReadyIsReachable | controllers/bmcmachine_controller.go:114-443 | for every block there is a run from the empty world to a ready machine that meets, for every object, each restriction some statement here puts on runs |
| Polling.FailedPollResult | controllers/bmcmachine_controller.go:338-408 | the verdict each kind of undelivered poll leaves: stale, orphaned, irreconcilable with its reason, or nothing |
| Polling.PoweredOnPollResult | controllers/bmcmachine_controller.go:411-437 | when a powered-on poll takes the reported server over and when it only binds the node |
| Polling.RepeatedPollIsIdleUnlessStranded | controllers/bmcmachine_controller.go:334-444 | repeating a poll changes nothing, for every state and reply, except exactly the poll that panics on a nil provider id before the machine is ready |
| Polling.NoServerIsStranded | controllers/closures.go:164 | no reachable machine with a server is ever in the one state in which polls are not idempotent |
| Polling.RepetitionsDoNotMatter | controllers/bmcmachine_controller.go:334-444 | deleting adjacent repetitions from any poll history leaves the same machine |
| Polling.StatusChangesAreReported | controllers/bmcmachine_controller.go:337-413 | no poll changes the recorded status without an event |
| Polling.OutagesAreReportedOnce | controllers/bmcmachine_controller.go:337-408 | a block of outages in any mix emits exactly one event, or none if already stale, and ends stale |
| Polling.ErrorsAreReportedEveryTime | controllers/bmcmachine_controller.go:411-421 | a block of polls reporting an error emits one event each, unless error itself is the recorded status |
| Polling.RejectionsAreReportedOnce | controllers/bmcmachine_controller.go:281-304 | a block of rejected creates in any mix emits exactly one event, or none if already irreconcilable, and leaves the reason of the first |
| Polling.RepeatedBlockPollIsIdle | controllers/bmccluster_controller.go:222-316 | repeating a poll of an IP block changes nothing, for every state and reply |
| Polling.BlockRepetitionsDoNotMatter | controllers/bmccluster_controller.go:222-316 | deleting adjacent repetitions from any block poll history leaves the same cluster |
| Polling.BlockPollReadiness | controllers/bmccluster_controller.go:306-314 | a poll makes a cluster ready exactly when it delivers the status its VIP manager waits for |
| Polling.BlockStatusChangesAreReported | controllers/bmccluster_controller.go:225-302 | no poll changes the recorded block status without an event |
| Polling.BlockOutagesAreReportedOnce | controllers/bmccluster_controller.go:225-295 | a block of outages in any mix emits exactly one event, or none if already stale, and ends stale |
| BlockTheorems.BlocksAreConserved | controllers/bmccluster_controller.go:150-213 | in every state of every run, the blocks ever allocated for a cluster are partitioned into the recorded one, the deleted and the lost; as sets and in number |
| BlockTheorems.EveryBlockLossIsCharged | controllers/bmccluster_controller.go:108-113 | each new entry of the ledger of lost blocks names what happened in that step |
| BlockTheorems.BlockLossesAreFinal | controllers/bmccluster_controller.go:108-113 | no later step removes or changes an entry of that ledger |
| BlockTheorems.ExtraBlocksAreAllocationFaults | controllers/bmccluster_controller.go:129-131 | a cluster has at most one block more than faults during its allocations |
| BlockTheorems.FaultFreeRunAllocatesAtMostOneBlock | controllers/bmccluster_controller.go:122-134 | a run in which no allocation of a cluster meets a fault allocates at most one block for it |
| BlockTheorems.EndpointAgrees | controllers/bmccluster_controller.go:199-216 | a recorded address is the published host with port 6443, and comes from the CIDR of the block whose id is recorded |
| BlockTheorems.EndpointIsStable | controllers/bmccluster_controller.go:129-133 | over any later part of a run a recorded address, its endpoint and its allocation stay, and Ready never falls |
| BlockTheorems.ClusterPanicsIff | controllers/bmccluster_controller.go:199-334 | a cluster reconcile panics exactly on a delivered allocation with a nil annotation map or a CIDR that is no address, or on an unanswered DELETE |
| BlockTheorems.RecordedBlockIsGuarded | controllers/bmccluster_controller.go:319-340 | a live cluster with a block holds its finalizer, and one that disappears has sent a DELETE or records a status other than unassigned |
| BlockDeletion.DeletionsStayWithTheOwner | controllers/bmccluster_controller.go:319-334 | a DELETE is sent exactly for a deleted cluster recorded as unassigned, and names what is recorded, which is a block of the cluster exactly when it is not empty |
| BlockDeletion.UnassignedHasBlockIffNeverBared | controllers/bmccluster_controller.go:328-329 | a cluster recorded as unassigned has a block recorded, in every state of a run, exactly when no delivered reply of its own leaves that status beside an empty id |
| BlockDeletion.DeletionsNameABlock | controllers/bmccluster_controller.go:328-334 | without such a reply every DELETE ever sent for a cluster names a block allocated for it |
| BlockDeletion.BareDeletionIsReachable | controllers/bmccluster_controller.go:328-329 | a run to a DELETE that names no block, for every allocation reply without an id and for every one of which only the status patch arrives |
| BlockDeletion.DeleteReleasesFinalizer | controllers/bmccluster_controller.go:319-340 | a persisted delete reconcile removes exactly the cluster finalizer, unless the DELETE of an unassigned block is not answered |
| BlockDeletion.DeletionSettlesBlock | controllers/bmccluster_controller.go:319-340 | a delete reconcile ends with the recorded block released exactly if it was or it is recorded as unassigned and the DELETE is answered 2xx; a cluster that goes away with it unreleased has lost it, with the right cause |
| BlockDeletion.StatusAtDeletionDecides | controllers/bmccluster_controller.go:114-117 | a deleted cluster keeps its recorded status, so that unless it is unassigned no later run ever releases the block |
| BlockDeletion.StaleBlockIsLeaked | controllers/bmccluster_controller.go:222-329 | a run in which one outage before the deletion leaks an unassigned block, for every kind of outage and whatever is answered later |
| ControllerOrder.ServersFollowTheBlock | controllers/bmcmachine_controller.go:197-259 | where no allocation of its cluster is torn or anonymous, a server is only requested while the block of the cluster is recorded, was allocated for it and is not lost, released only if the cluster is being deleted; control-plane servers without VIP manager name exactly that block, all others none |
| ControllerOrder.ServersFollowTheAddress | controllers/bmcmachine_controller.go:197-259 | where no allocation of its cluster is torn, a server is only requested while an allocated address of the cluster is recorded, and a control-plane server without VIP manager names a recorded block |
| ControllerOrder.ReadyHasAddressIffUntorn | controllers/bmccluster_controller.go:196-218 | a cluster is ready only with an address, in every state of a run, exactly when none of its allocations is torn |
| ControllerOrder.AddressHasBlockIffNamed | controllers/bmccluster_controller.go:196-213 | a cluster has an address only with a recorded block, in every state of a run, exactly when it never recorded one from a reply without an id |
| ControllerOrder.ReadyWithoutAddressIffTorn | controllers/bmccluster_controller.go:196-218 | a reconcile leaves a cluster ready without an address exactly when it allocates one and only the status patch arrives |
| ControllerOrder.AddressWithoutBlockIffAnonymous | controllers/bmccluster_controller.go:196-213 | a reconcile leaves an address without a block exactly when it records one from a reply without an id |
| ControllerOrder.TornAllocationBreaksTheOrder | controllers/bmccluster_controller.go:108-113 | a run with one torn allocation in which a server is requested while no block and no address is recorded |
| ControllerOrder.AnonymousBlockBreaksTheOrder | controllers/bmccluster_controller.go:199-201 | a run with one allocation reply without an id in which a server is requested while no block is recorded and the block is lost |
| BlockInvariant.RunKeepsBlocksInv | controllers/bmccluster_controller.go:66-119 | endpoint, finalizer evidence and the account of every block hold in every state of every run |
| BlockInvariant.NewBlockIsAccounted | controllers/bmccluster_controller.go:188-201 | a block just created is recorded exactly when none of the allocation faults happened, and is charged to the fault otherwise |
| BlockInvariant.PublishedEndpointIsKept | controllers/bmccluster_controller.go:129-133 | no reconcile changes the annotations or the endpoint of a cluster with an address |
| BlockInvariant.AllocationComesFromReply | controllers/bmccluster_controller.go:188-213 | the allocation id and address a reconcile leaves recorded, including when it panics half way |
| BlockInvariant.CallsNameTheRecordedBlock | controllers/bmccluster_controller.go:225-329 | when each call is sent and which block it names |
| BlockInvariant.ClusterFinalizerMoves | controllers/bmccluster_controller.go:125-339 | live reconciles only add the finalizer; the delete that drops it got an answer or had no DELETE to send |
| ClusterOutcomes.CallsIff | controllers/bmccluster_controller.go:122-334 | exactly when an allocation, a poll and a DELETE is sent, and what it names |
| ClusterOutcomes.ClosedGate | controllers/bmccluster_controller.go:80-96 | before the gates are passed nothing happens, and only a failed lookup is an error |
| ClusterOutcomes.AllocationStores | controllers/bmccluster_controller.go:161-218 | the status an allocation leaves for every answer, and that a failed one changes nothing else |
| ClusterOutcomes.AllocationRecords | controllers/bmccluster_controller.go:198-216 | which annotations and endpoint a delivered allocation writes, as far as it gets |
| ClusterOutcomes.AllocationReturns | controllers/bmccluster_controller.go:150-219 | which answers to an allocation are reported as what, and how each returns |
| ClusterOutcomes.PollStores | controllers/bmccluster_controller.go:225-314 | the id, CIDR, status and readiness a poll leaves for every answer: stale, orphaned, irreconcilable, the reply's own, or as before |
| ClusterOutcomes.PollReturns | controllers/bmccluster_controller.go:225-316 | the events of a block poll and how each answer to it returns |
| ClusterOutcomes.DeletionReturns | controllers/bmccluster_controller.go:319-340 | what a delete reconcile leaves, reports and returns, half way exactly on an unanswered DELETE |
| ClusterOutcomes.PatchPartsArriveAlone | controllers/bmccluster_controller.go:108-113 | metadata and spec are stored exactly with the one request of the deferred patch, the status exactly with the other |
| ClusterOutcomes.NilMapAllocates | controllers/closures.go:254-256 | a cluster with a nil annotation map allocates every time, and panics on every block it gets |
| StatusEvidence.ClusterStatusHasEvidence | controllers/bmccluster_controller.go:161-302 | in every reachable state a cluster is recorded in a status that one of its own calls was answered with |
| StatusEvidence.DeletesFollowAReport | controllers/bmccluster_controller.go:328-334 | no DELETE is ever sent for a cluster before its block was reported unassigned to it |
| Ipv4.ParseExactlyPrinted | controllers/bmccluster_controller.go:206-209 | a text parses to an address exactly when it is that address printed |
| Ipv4.OctetTextDenotes | controllers/bmccluster_controller.go:209 | an octet is printed as its decimal numeral: digits only, no leading zero, the places weighted by powers of ten |
| Ipv4.ParsesExactlyNumerals | controllers/bmccluster_controller.go:206 | a field parses exactly if it is the decimal numeral of an octet, and then to that octet |
| Ipv4.ParsesExactlyDottedNumerals | controllers/bmccluster_controller.go:206-209 | a text parses to an address exactly if it is four numerals between dots, the most significant first |
| Ipv4.PublishedInNumerals | controllers/bmccluster_controller.go:206-213 | from a CIDR in numerals the first three fields are published as they are, and the fourth as the numeral of the next byte |
| Ipv4.NextStaysInBlockIffAligned | controllers/bmccluster_controller.go:203-207 | the byte increment is the successor unless the byte is 255, and stays in the /31 block exactly when the address is aligned |
| Ipv4.BlockHasTwoAddresses | controllers/bmccluster_controller.go:203-205 | an aligned /31 block holds its address, the next one and no third |
| Ipv4.DerivedExactly | controllers/bmccluster_controller.go:206-209 | the derivation succeeds exactly on printed addresses, with or without the suffix, and then yields the next address printed |
| Ipv4.AlignedBlockYieldsOtherAddress | controllers/bmccluster_controller.go:203-213 | for every aligned block the published text is that of the other address, reads back as it, and its value is one more |
| Ipv4.ParseIP | controllers/bmccluster_controller.go:206 | a fresh 16-byte buffer in IPv4-mapped form, or nil exactly when the text is no address |
| Ipv4.DeriveControlPlane | controllers/bmccluster_controller.go:206-209 | the in-place increment of byte 15 prints the specified text, or the nil buffer is met |
| MachineReconciler.Reconcile | controllers/bmcmachine_controller.go:114-186 | the whole reconcile with its deferred patch stores, sends, reports and returns what the model says |
| MachineReconciler.MachineContext.ReconcileLive | controllers/bmcmachine_controller.go:189-218 | finalizer, gates and dispatch, against the model |
| MachineReconciler.MachineContext.ReconcileCreate | controllers/bmcmachine_controller.go:221-331 | the create path branch by branch, against the model |
| MachineReconciler.MachineContext.ReconcileSynchronize | controllers/bmcmachine_controller.go:334-408 | the poll path up to the decoded reply, against the model |
| MachineReconciler.MachineContext.Absorb | controllers/bmcmachine_controller.go:410-443 | the poll path after the reply is decoded, against the model |
| MachineReconciler.MachineContext.ReconcileDelete | controllers/bmcmachine_controller.go:447-506 | the delete path branch by branch, against the model |
| MachineReconciler.MachineContext.SetMachineID | controllers/closures.go:69-73 | provider id first, then the annotation, which panics exactly on a nil map |
| MachineReconciler.MachineContext.MergeBMCStatusProperties | controllers/closures.go:107-118 | ten fields taken over one by one leave every Kubernetes-side field as it was |
| MachineReconciler.MachineContext.SetReady | controllers/closures.go:204-213 | the append loop builds exactly the external addresses |
| MachineReconciler.MachineContext.SetNodeRef | controllers/closures.go:123-171 | binding, its early exits and the nil dereference, against the model |
| ClusterReconciler.Reconcile | controllers/bmccluster_controller.go:66-119 | the whole reconcile with its deferred patch stores, sends, reports and returns what the model says |
| ClusterReconciler.ClusterContext.ReconcileCreate | controllers/bmccluster_controller.go:137-219 | the allocation path branch by branch, with both panics, against the model |
| ClusterReconciler.ClusterContext.ReconcileSynchronize | controllers/bmccluster_controller.go:222-316 | the poll path branch by branch, against the model |
| ClusterReconciler.ClusterContext.ReconcileDelete | controllers/bmccluster_controller.go:319-340 | the delete path, with the panic on an unanswered DELETE, against the model |
| ClusterReconciler.ClusterContext.ReconcileLive | controllers/bmccluster_controller.go:122-134 | finalizer and dispatch, against the model |
| ClusterReconciler.ClusterContext.SetStatus | controllers/closures.go:274-278 | three fields taken over one by one leave readiness and error message as they were |
| WakeUp.BMCClusterToBMCMachines | controllers/bmcmachine_controller.go:585-617 | the error exits, and the append loop against the specified requests |
| WakeUp.RequestsTraceTheList | controllers/bmcmachine_controller.go:608-615 | strictly ascending positions into the list, covering exactly the machines with an infrastructure name, that the requests come from one by one |
| DeepCopy.MachineStatusStruct.DeepCopyInto | api/v1beta1/zz_generated.deepcopy.go:215-248 | equal view, nil stays nil, all pointed-at storage fresh, source unchanged |
| DeepCopy.MachineSpecStruct.DeepCopyInto | api/v1beta1/zz_generated.deepcopy.go:185-202 | equal view, nil stays nil, all pointed-at storage fresh, source unchanged |
| DeepCopy.MachineStatusStruct.LooksAreContents | api/v1beta1/zz_generated.deepcopy.go:215-248 | equal views are equal contents, field by field and element by element |
| DeepCopy.MachineSpecStruct.LooksAreContents | api/v1beta1/zz_generated.deepcopy.go:185-202 | equal views are equal contents, field by field and element by element |
| DeepCopy.MachineStruct.DeepCopyInto | api/v1beta1/zz_generated.deepcopy.go:126-132 | equal view of metadata, spec and status with fresh storage |
| DeepCopy.MachineStruct.DeepCopy | api/v1beta1/zz_generated.deepcopy.go:135-142 | a wholly fresh copy with equal view |
| DeepCopy.MachineListStruct.DeepCopyInto | api/v1beta1/zz_generated.deepcopy.go:153-164 | equal view of the whole list, a nil slice stays nil, slice, elements and their storage fresh, no two elements sharing any |
| DeepCopy.Copies | api/v1beta1/zz_generated.deepcopy.go:158-162 | the loop fills a zeroed slice in place, element by element, with deep copies that share nothing with each other or with the source |
| DeepCopy.CopyThenWrite | api/v1beta1/zz_generated.deepcopy.go:167-174 | the copy shares no storage with the original, and whatever is done in place to the original leaves the copy as the original was |
| DeepCopy.CopyThenWriteToCopy | api/v1beta1/zz_generated.deepcopy.go:167-174 | whatever is done in place to the copy leaves the original as it was |
| DeepCopy.ClusterStatusStruct.DeepCopyInto | api/v1beta1/zz_generated.deepcopy.go:106-113 | equal view, nil stays nil, the error message fresh |

## Left out

- Stale cache reads: a reconcile of the model reads the last stored object, so a second create caused by a stale read is not covered.
- Interleaving inside one reconcile: a reconcile is one step; a deletion that arrives during it is the same as a lost patch followed by the deletion.
- HTTP, OAuth, JSON, base64, the patch helper, the remote client and controllerutil are library code; only their outcomes are inputs.
- Ipv4.ParseIP: accepts strict IPv4 dotted decimal only; IPv6 texts, which net.ParseIP also takes, count as no address.
- Ipv4.DerivedExactly: speaks of IPv4 texts only; for an IPv6 text, which the code would increment and print, the model derives nothing.
- Ipv4.DeriveControlPlane: meets the nil buffer on an IPv6 text, where the code would proceed, for the same reason.
- The pass-through fields of the create request (description, OS, type, location, SSH keys, network type, user data) and of the block request.
- The in-memory write of the endpoint to the Cluster object, which the deferred patch does not persist.
- Event texts, log texts and wall-clock durations; reasons, failure messages by kind and requeue classes are kept.
- Copies of type and object metadata are library code and are values here; the copies of cluster lists, templates and tags repeat the patterns shown.
- Workload nodes that are removed, registered anew or given a provider id by somebody else: only these controllers' writes are followed.
- Manager set-up, watches and predicates, flags, leader election, metrics, CRDs, RBAC and the release helper.
- The request of a deprovision to delete the server's IP blocks as well: a block counts as released only by its cluster's own answered DELETE.
- The effect of a DELETE or deprovision that is not answered 2xx: the cloud may still have acted, but only a 2xx answer counts as released.
