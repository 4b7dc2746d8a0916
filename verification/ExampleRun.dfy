/**
 Runs from an empty world: one without any fault, which meets the hypotheses of the theorems
 together, and those that end in states the code should not reach.
 */
module ExampleRun {
  import opened Wrappers
  import opened Api
  import opened TransitionSystem
  import opened ControllerOrder
  import opened MachineLifecycle
  import opened NodeBinding
  import opened Convergence
  import S = ServerInvariant
  import I = BlockInvariant
  import B = BlockTheorems
  import D = BlockDeletion
  import T = ServerTheorems
  import M = MachineModel
  import F = MachineFacts
  import Ipv4

  const WHOLE := Patch(true, true)

  /** A reconcile with every gate open. */
  function EnvWith(reply: Reply<MachineStatus>, node: M.NodeLookup, patch: Patch): M.MachineEnv {
    M.MachineEnv(M.Open, M.Available, reply, node, patch)
  }

  function ServerReply(id: string, status: BMCStatus, ready: bool): Reply<MachineStatus> {
    Response(200, Some(EMPTY_MACHINE_STATUS.(bmcServerID := id, bmcStatus := status, ready := ready)))
  }

  /** The cloud makes a server and says so; the reply may claim that it is ready. */
  function Creation(k: Key, id: string, ready: bool, patch: Patch): Label {
    ReconcileMachine(k, EnvWith(ServerReply(id, OtherStatus("creating"), ready), M.NodeMissing, patch), Some(id))
  }

  function PoweredOnPoll(k: Key, id: string, node: M.NodeLookup): Label {
    ReconcileMachine(k, EnvWith(ServerReply(id, PoweredOn, false), node, WHOLE), None)
  }

  // ---------- single steps ----------

  /** What a create leaves of a waiting machine, if its metadata patch arrives. */
  predicate Created(w: World, k: Key, name: string, id: string) {
    && MachinePresent(w, k) && w.machines[k].place == Placement("c", name, false)
    && ClusterPresent(w, "c") && w.clusters["c"].obj.vip == KUBEVIP && "c" in w.infrastructureReady
    && var m := w.machines[k].obj;
       && !m.deleting && M.GetMachineID(m) == id != "" && m.status.nodeRef == None
  }

  lemma CreationStores(w: World, k: Key, name: string, id: string, ready: bool, patch: Patch)
    requires Waits(w, k, name) && id != "" && id !in w.servers
    ensures var l := Creation(k, id, ready, patch);
            && SendsServerCreate(w, k, l.menv) && Allowed(w, l) && (Clean(w, l) <==> !(ready && patch.status))
            && var m := w.machines[k].obj;
               var m' := M.Persisted(m, MachineEffectIn(w, k, l.menv).obj, patch);
               && M.GetMachineID(m') == (if patch.meta then id else "") && (!patch.meta ==> m'.annotations == m.annotations)
               && m'.status.nodeRef == None && m'.status.ready == (if patch.status then ready else m.status.ready)
               && (patch.status ==> m'.status.failureReason == None)
  {
    var l := Creation(k, id, ready, patch);
    WaitingMachineSendsCreate(w, k, name, l.menv);
    F.IdentityComesFromCreateReply(w.machines[k].obj, SiteOf(w, k), EnvSeen(w, k, l.menv));
    AdoptedStatus(w.machines[k].obj, SiteOf(w, k), EnvSeen(w, k, l.menv));
    NodesGetTheProviderID(w.machines[k].obj, SiteOf(w, k), EnvSeen(w, k, l.menv));
  }

  /** What a reconcile of a machine leaves alone. */
  predicate OthersAlone(w: World, w': World, k: Key) {
    && w'.clusters == w.clusters && w'.infrastructureReady == w.infrastructureReady
    && w'.machines.Keys == w.machines.Keys
    && (forall j :: j in w.machines && j != k ==> w'.machines[j] == w.machines[j])
    && (k in w.machines ==> w'.machines[k].place == w.machines[k].place)
  }

  lemma MachineStepLeavesOthers(w: World, l: Label)
    requires l.ReconcileMachine? && MachinePresent(w, l.key)
    ensures OthersAlone(w, Step(w, l), l.key)
  {
    I.MachineStepLeavesBlocks(w, l);
    InfrastructureChangesByLabel(w, l);
    IdentityStays(w, l, l.key);
  }

  lemma CreationWorks(w: World, k: Key, name: string, id: string, ready: bool, patch: Patch)
    requires Waits(w, k, name) && id != "" && id !in w.servers
    ensures var l := Creation(k, id, ready, patch);
            var w' := Step(w, l);
            && Allowed(w, l) && (Clean(w, l) <==> !(ready && patch.status))
            && OthersAlone(w, w', k) && w'.nodes == w.nodes && MachinePresent(w', k)
            && M.GetMachineID(w'.machines[k].obj) == (if patch.meta then id else "")
            && w'.machines[k].obj.status.ready == (if patch.status then ready else w.machines[k].obj.status.ready)
            && (patch.status ==> w'.machines[k].obj.status.failureReason == None)
            && (if patch.meta then Created(w', k, name, id) else Waits(w', k, name))
  {
    var l := Creation(k, id, ready, patch);
    CreationStores(w, k, name, id, ready, patch);
    CreatingMachineStays(w, k, l.menv, l.made);
    MachineStepLeavesOthers(w, l);
    NodesChangeByBinding(w, l);
    NodesGetTheProviderID(w.machines[k].obj, SiteOf(w, k), EnvSeen(w, k, l.menv));
  }

  /** A powered-on poll is possible unless its write to the node succeeds though the node is already written. */
  lemma PollIsAllowed(w: World, k: Key, name: string, id: string, node: M.NodeLookup)
    requires S.ServersInv(w) && Created(w, k, name, id)
    requires node.NodeFound? && node.write == M.Patched ==> ("c", M.GetHostname(name)) !in w.nodes
    ensures var l := PoweredOnPoll(k, id, node);
            !SendsServerCreate(w, k, l.menv) && Allowed(w, l) && Clean(w, l) && PoweredOnArrives(w, k, l.menv)
  {
    var l := PoweredOnPoll(k, id, node);
    ServedSendsNoCreate(w, k, l.menv);
    assert S.MachineOK(w.servers, w.log, k, w.machines[k]);
    NodeIsWrittenOnlyWhenBinding(w.machines[k].obj, SiteOf(w, k), EnvSeen(w, k, l.menv));
  }

  lemma PollWritesNode(w: World, k: Key, name: string, id: string, uid: string, write: M.NodeWrite)
    requires S.ServersInv(w) && Created(w, k, name, id)
    ensures Step(w, PoweredOnPoll(k, id, M.NodeFound(uid, write))).nodes ==
              if write == M.Patched then w.nodes[("c", M.GetHostname(name)) := M.ProviderIDOf(id)] else w.nodes
  {
    var l := PoweredOnPoll(k, id, M.NodeFound(uid, write));
    var m := w.machines[k].obj;
    assert S.MachineOK(w.servers, w.log, k, w.machines[k]);
    NodeIsWrittenOnlyWhenBinding(m, SiteOf(w, k), EnvSeen(w, k, l.menv));
    NodesGetTheProviderID(m, SiteOf(w, k), EnvSeen(w, k, l.menv));
    NodesChangeByBinding(w, l);
  }

  lemma PollSetsNodeRef(w: World, k: Key, name: string, id: string, uid: string, write: M.NodeWrite)
    requires S.ServersInv(w) && Created(w, k, name, id)
    ensures var m' := Step(w, PoweredOnPoll(k, id, M.NodeFound(uid, write))).machines[k].obj;
            m'.status.nodeRef.Some? && M.GetMachineID(m') == id
  {
    var l := PoweredOnPoll(k, id, M.NodeFound(uid, write));
    assert S.MachineOK(w.servers, w.log, k, w.machines[k]);
    BindingSetsNodeRefIff(w.machines[k].obj, SiteOf(w, k), EnvSeen(w, k, l.menv));
    IdentityStays(w, l, k);
  }

  /** A powered-on poll that finds the node binds it, and writes it exactly if the write works. */
  lemma PollBinds(w: World, k: Key, name: string, id: string, uid: string, write: M.NodeWrite)
    requires S.ServersInv(w) && Created(w, k, name, id)
    ensures var w' := Step(w, PoweredOnPoll(k, id, M.NodeFound(uid, write)));
            && OthersAlone(w, w', k) && w'.servers == w.servers
            && w'.machines[k].obj.status.nodeRef.Some? && M.GetMachineID(w'.machines[k].obj) == id
            && w'.nodes == (if write == M.Patched then w.nodes[("c", M.GetHostname(name)) := M.ProviderIDOf(id)]
                            else w.nodes)
  {
    var l := PoweredOnPoll(k, id, M.NodeFound(uid, write));
    PollWritesNode(w, k, name, id, uid, write);
    PollSetsNodeRef(w, k, name, id, uid, write);
    PollKeepsServers(w, l);
    MachineStepLeavesOthers(w, l);
  }

  lemma PollKeepsServers(w: World, l: Label)
    requires l.ReconcileMachine? && MachinePresent(w, l.key) && !w.machines[l.key].obj.deleting
    requires M.GetMachineID(w.machines[l.key].obj) != ""
    ensures Step(w, l).servers == w.servers
  {
    var m := w.machines[l.key].obj;
    if MachineEffectIn(w, l.key, l.menv).call.Some? {
      F.CallsNameTheRecordedServer(m, SiteOf(w, l.key), EnvSeen(w, l.key, l.menv));
    }
    assert Step(w, l).servers == CloudAfter(w.servers, l.key, MachineEffectIn(w, l.key, l.menv).call, l.menv.reply, l.made);
  }

  // ---------- without any fault ----------

  /** Nothing that any statement about runs has to exclude. */
  predicate Faultless(w: World, l: Label) {
    && Clean(w, l) && Untorn(w, l) && Named(w, l) && D.BaresNothing(w, l)
    && T.FaultFreeCreate(w, l) && B.FaultFreeAllocation(w, l)
    && Respects(w, l, AddressesAgree) && Respects(w, l, BoundOnlyWhenReady)
  }

  lemma FaultlessExcludesAll(w: World, labels: seq<Label>, k: Key)
    requires Throughout(w, labels, k, Faultless)
    ensures Throughout(w, labels, k, Clean) && Throughout(w, labels, k, Untorn) && Throughout(w, labels, k, Named)
    ensures Throughout(w, labels, k, D.BaresNothing)
    ensures Throughout(w, labels, k, T.FaultFreeCreate) && Throughout(w, labels, k, B.FaultFreeAllocation)
    ensures Throughout(w, labels, k, (v, l) => Respects(v, l, AddressesAgree))
    ensures Throughout(w, labels, k, (v, l) => Respects(v, l, BoundOnlyWhenReady))
  {
    ThroughoutWeakens(w, labels, k, Faultless, Clean);
    ThroughoutWeakens(w, labels, k, Faultless, Untorn);
    ThroughoutWeakens(w, labels, k, Faultless, Named);
    ThroughoutWeakens(w, labels, k, Faultless, D.BaresNothing);
    ThroughoutWeakens(w, labels, k, Faultless, T.FaultFreeCreate);
    ThroughoutWeakens(w, labels, k, Faultless, B.FaultFreeAllocation);
    ThroughoutWeakens(w, labels, k, Faultless, (v, l) => Respects(v, l, AddressesAgree));
    ThroughoutWeakens(w, labels, k, Faultless, (v, l) => Respects(v, l, BoundOnlyWhenReady));
  }

  /** An allocation that brings everything and is stored whole. */
  lemma WholeAllocationIsFaultless(w: World, l: Label)
    requires l.ReconcileCluster? && ClusterPresent(w, l.key) && w.clusters[l.key].obj.annotations.Some?
    requires Delivered(l.cenv.reply) && l.cenv.reply.body.value.id != "" && l.cenv.patch == WHOLE
    requires Ipv4.ControlPlaneText(l.cenv.reply.body.value.cidr).Some? && !D.Bares(w.clusters[l.key].obj, l.cenv)
    ensures Faultless(w, l)
  {
  }

  lemma AllocationIsFaultless(x: Ipv4.Address)
    ensures Faultless(Step(EMPTY_WORLD, D.REGISTER_CLUSTER), D.Allocation(x, "block", WHOLE))
  {
    Ipv4.PublishedReadsBack(x);
    AllocationBaresNothing(x);
    WholeAllocationIsFaultless(Step(EMPTY_WORLD, D.REGISTER_CLUSTER), D.Allocation(x, "block", WHOLE));
  }

  lemma AllocationBaresNothing(x: Ipv4.Address)
    ensures !D.Bares(D.KUBEVIP_CLUSTER, D.AllocationEnv(x, "block", WHOLE))
  {
  }

  lemma PreparationIsFaultless(x: Ipv4.Address, k: Key)
    ensures Throughout(EMPTY_WORLD, Preparation(x, "block", WHOLE), k, Faultless)
  {
    AllocationIsFaultless(x);
    FourStepsThroughout(EMPTY_WORLD, D.REGISTER_CLUSTER, D.Allocation(x, "block", WHOLE), INFRASTRUCTURE_READY,
                        REGISTER_MACHINE, k, Faultless);
  }

  const CREATE := Creation("m", "server", false, WHOLE)

  function CreateAndPoll(node: M.NodeLookup): seq<Label> {
    [CREATE] + [PoweredOnPoll("m", "server", node)]
  }

  lemma CreationIsFaultless(w: World)
    requires FirstWaits(w)
    ensures Faultless(w, CREATE)
  {
  }

  lemma PollIsFaultless(w: World, l: Label)
    requires l.ReconcileMachine? && !SendsServerCreate(w, l.key, l.menv)
    ensures Faultless(w, l)
  {
  }

  lemma FirstMachineGetsReady(w: World, k: Key)
    requires FirstWaits(w) && S.ServersInv(w)
    ensures ValidRun(w, CreateAndPoll(M.NodeMissing)) && Throughout(w, CreateAndPoll(M.NodeMissing), k, Faultless)
    ensures PhaseOf(Run(w, CreateAndPoll(M.NodeMissing)), "m").Ready?
  {
    var poll := PoweredOnPoll("m", "server", M.NodeMissing);
    CreationWorks(w, "m", "a.b", "server", false, WHOLE);
    CreationIsFaultless(w);
    S.StepKeepsServersInv(w, CREATE);
    PollIsAllowed(Step(w, CREATE), "m", "a.b", "server", M.NodeMissing);
    PollIsFaultless(Step(w, CREATE), poll);
    PoweredOnPollReachesReady(Step(w, CREATE), "m", poll.menv, poll.made);
    TwoSteps(w, CREATE, poll);
    TwoStepsThroughout(w, CREATE, poll, k, Faultless);
  }

  function FaultFree(x: Ipv4.Address): seq<Label> {
    Preparation(x, "block", WHOLE) + CreateAndPoll(M.NodeMissing)
  }

  /**
   For every block the cloud may hand out there is a run to a ready machine that meets, for every
   object, each restriction that some statement puts on runs.
   */
  lemma ReadyIsReachable(x: Ipv4.Address, k: Key)
    ensures ValidRun(EMPTY_WORLD, FaultFree(x)) && PhaseOf(Run(EMPTY_WORLD, FaultFree(x)), "m").Ready?
    ensures Throughout(EMPTY_WORLD, FaultFree(x), k, Clean)
    ensures Throughout(EMPTY_WORLD, FaultFree(x), k, Untorn) && Throughout(EMPTY_WORLD, FaultFree(x), k, Named)
    ensures Throughout(EMPTY_WORLD, FaultFree(x), k, D.BaresNothing)
    ensures Throughout(EMPTY_WORLD, FaultFree(x), k, T.FaultFreeCreate)
    ensures Throughout(EMPTY_WORLD, FaultFree(x), k, B.FaultFreeAllocation)
    ensures Throughout(EMPTY_WORLD, FaultFree(x), k, (v, l) => Respects(v, l, AddressesAgree))
    ensures Throughout(EMPTY_WORLD, FaultFree(x), k, (v, l) => Respects(v, l, BoundOnlyWhenReady))
  {
    var prep, last := Preparation(x, "block", WHOLE), CreateAndPoll(M.NodeMissing);
    PreparationWorks(x, "block", WHOLE);
    PreparationIsFaultless(x, k);
    S.RunKeepsServersInv(EMPTY_WORLD, prep);
    FirstMachineGetsReady(Run(EMPTY_WORLD, prep), k);
    RunSplits(EMPTY_WORLD, prep, last);
    ThroughoutSplits(EMPTY_WORLD, prep, last, k, Faultless);
    FaultlessExcludesAll(EMPTY_WORLD, FaultFree(x), k);
  }

  // ---------- a forged Ready ----------

  lemma ServerWasNotPolled(w: World, l: Label)
    requires FirstWaits(w) && S.ServersInv(w) && l.ReconcileMachine? && l.key == "m" && SendsServerCreate(w, "m", l.menv)
    ensures !PolledOn(Step(w, l).log, "m", "server")
  {
    var call := MachineEffectIn(w, "m", l.menv).call;
    assert Step(w, l).log == w.log + [MachineCall("m", call.value, l.menv.reply)];
    forall e | e in w.log
      ensures !(e.MachineCall? && e.call == GetServer("server"))
    {
      assert S.EntryOK(w.servers, e);
    }
  }

  /**
   A create reply that says ready leaves the machine ready though nothing was polled; where only
   its status patch arrives, the machine is ready without any server recorded.
   */
  lemma ForgedReadyIsReachable(x: Ipv4.Address, meta: bool)
    ensures var run := Preparation(x, "block", WHOLE) + [Creation("m", "server", true, Patch(meta, true))];
            && ValidRun(EMPTY_WORLD, run)
            && var w := Run(EMPTY_WORLD, run);
               && MachinePresent(w, "m") && w.machines["m"].obj.status.ready && !PolledOn(w.log, "m", "server")
               && M.GetMachineID(w.machines["m"].obj) == (if meta then "server" else "")
  {
    var prep, forged := Preparation(x, "block", WHOLE), Creation("m", "server", true, Patch(meta, true));
    PreparationWorks(x, "block", WHOLE);
    S.RunKeepsServersInv(EMPTY_WORLD, prep);
    var w := Run(EMPTY_WORLD, prep);
    CreationStores(w, "m", "a.b", "server", true, Patch(meta, true));
    CreationWorks(w, "m", "a.b", "server", true, Patch(meta, true));
    RunSplits(EMPTY_WORLD, prep, [forged]);
    RunOne(w, forged);
    ServerWasNotPolled(w, forged);
  }

  // ---------- what a create reply takes back ----------

  /**
   Without a server Ready is not safe: a forged Ready whose metadata patch was lost falls again with
   the next create, whose reply overwrites the whole status.
   */
  lemma ReadyCanFall(x: Ipv4.Address)
    ensures var forged, next := Creation("m", "server", true, Patch(false, true)), Creation("m", "other", false, WHOLE);
            var run := Preparation(x, "block", WHOLE) + ([forged] + [next]);
            var before, after := Run(EMPTY_WORLD, Preparation(x, "block", WHOLE) + [forged]), Run(EMPTY_WORLD, run);
            && ValidRun(EMPTY_WORLD, run)
            && PhaseOf(before, "m").Ready? && PhaseOf(after, "m").Provisioned? && PhaseOf(after, "m").id == "other"
  {
    var prep := Preparation(x, "block", WHOLE);
    var forged, next := Creation("m", "server", true, Patch(false, true)), Creation("m", "other", false, WHOLE);
    PreparationWorks(x, "block", WHOLE);
    var w := Run(EMPTY_WORLD, prep);
    CreationStores(w, "m", "a.b", "server", true, Patch(false, true));
    CreationWorks(w, "m", "a.b", "server", true, Patch(false, true));
    CreatedServers(w, forged);
    CreationWorks(Step(w, forged), "m", "a.b", "other", false, WHOLE);
    TwoSteps(w, forged, next);
    RunOne(w, forged);
    RunSplits(EMPTY_WORLD, prep, [forged]);
    RunSplits(EMPTY_WORLD, prep, [forged] + [next]);
  }

  const REJECTED :=
    ReconcileMachine("m", EnvWith(Response(400, None), M.NodeMissing, WHOLE), None)

  lemma RejectionIsRecorded(w: World)
    requires FirstWaits(w)
    ensures Allowed(w, REJECTED)
    ensures var w' := Step(w, REJECTED);
            Waits(w', "m", "a.b") && w'.servers == map[] && w'.machines["m"].obj.status.failureReason.Some?
  {
    MachineStepLeavesOthers(w, REJECTED);
  }

  /** The failure a rejected create recorded is erased by the next create that succeeds. */
  lemma FailureCanBeErased(x: Ipv4.Address)
    ensures var run := Preparation(x, "block", WHOLE) + ([REJECTED] + [CREATE]);
            var before, after := Run(EMPTY_WORLD, Preparation(x, "block", WHOLE) + [REJECTED]), Run(EMPTY_WORLD, run);
            && ValidRun(EMPTY_WORLD, run) && "m" in before.machines && "m" in after.machines
            && before.machines["m"].obj.status.failureReason.Some? && after.machines["m"].obj.status.failureReason.None?
  {
    var prep := Preparation(x, "block", WHOLE);
    PreparationWorks(x, "block", WHOLE);
    var w := Run(EMPTY_WORLD, prep);
    RejectionIsRecorded(w);
    CreationWorks(Step(w, REJECTED), "m", "a.b", "server", false, WHOLE);
    TwoSteps(w, REJECTED, CREATE);
    RunOne(w, REJECTED);
    RunSplits(EMPTY_WORLD, prep, [REJECTED]);
    RunSplits(EMPTY_WORLD, prep, [REJECTED] + [CREATE]);
  }

  // ---------- nodes ----------

  const NODE := ("c", M.GetHostname("a.b"))

  function BindingRun(x: Ipv4.Address, uid: string, write: M.NodeWrite): seq<Label> {
    Preparation(x, "block", WHOLE) + CreateAndPoll(M.NodeFound(uid, write))
  }

  /** The first machine is bound to its node. */
  predicate FirstBound(w: World) {
    && w.machines.Keys == {"m"} && w.servers.Keys == {"server"} && w.machines["m"].place.Node() == NODE
    && M.GetMachineID(w.machines["m"].obj) == "server" && w.machines["m"].obj.status.nodeRef.Some?
    && ClusterPresent(w, "c") && w.clusters["c"].obj.vip == KUBEVIP && "c" in w.infrastructureReady
  }

  lemma FirstCreationWorks(w: World)
    requires FirstWaits(w)
    ensures var w' := Step(w, CREATE);
            && Allowed(w, CREATE) && Created(w', "m", "a.b", "server")
            && w'.machines.Keys == {"m"} && w'.servers.Keys == {"server"} && w'.nodes == map[]
  {
    CreationStores(w, "m", "a.b", "server", false, WHOLE);
    CreationWorks(w, "m", "a.b", "server", false, WHOLE);
    CreatedServers(w, CREATE);
  }

  lemma FirstMachineBinds(w: World, uid: string, write: M.NodeWrite)
    requires FirstWaits(w) && S.ServersInv(w)
    ensures var run := CreateAndPoll(M.NodeFound(uid, write));
            var w' := Run(w, run);
            && ValidRun(w, run) && FirstBound(w')
            && w'.nodes == (if write == M.Patched then map[NODE := M.ProviderIDOf("server")] else map[])
  {
    var poll := PoweredOnPoll("m", "server", M.NodeFound(uid, write));
    FirstCreationWorks(w);
    S.StepKeepsServersInv(w, CREATE);
    PollIsAllowed(Step(w, CREATE), "m", "a.b", "server", poll.menv.node);
    PollBinds(Step(w, CREATE), "m", "a.b", "server", uid, write);
    TwoSteps(w, CREATE, poll);
  }

  /** The first machine is bound, and its node is written exactly if the write works. */
  lemma BindingRunBinds(x: Ipv4.Address, uid: string, write: M.NodeWrite)
    ensures ValidRun(EMPTY_WORLD, BindingRun(x, uid, write))
    ensures var w := Run(EMPTY_WORLD, BindingRun(x, uid, write));
            && S.ServersInv(w) && FirstBound(w)
            && w.nodes == (if write == M.Patched then map[NODE := M.ProviderIDOf("server")] else map[])
  {
    var prep := Preparation(x, "block", WHOLE);
    PreparationWorks(x, "block", WHOLE);
    S.RunKeepsServersInv(EMPTY_WORLD, prep);
    FirstMachineBinds(Run(EMPTY_WORLD, prep), uid, write);
    RunSplits(EMPTY_WORLD, prep, CreateAndPoll(M.NodeFound(uid, write)));
    S.RunKeepsServersInv(EMPTY_WORLD, BindingRun(x, uid, write));
  }

  lemma CreatedServers(w: World, l: Label)
    requires l.ReconcileMachine? && SendsServerCreate(w, l.key, l.menv) && l.made.Some?
    ensures Step(w, l).servers == w.servers[l.made.value := Asset(l.key, false)]
  {
    assert Step(w, l).servers == CloudAfter(w.servers, l.key, MachineEffectIn(w, l.key, l.menv).call, l.menv.reply, l.made);
  }

  /**
   A binding whose write to the node fails is reachable, and then no later run that keeps the
   machine the sole user of its node ever writes it.
   */
  lemma UnwrittenNodeIsReachable(x: Ipv4.Address, uid: string, write: M.NodeWrite, later: seq<Label>)
    requires write != M.Patched
    ensures var w := Run(EMPTY_WORLD, BindingRun(x, uid, write));
            && ValidRun(EMPTY_WORLD, BindingRun(x, uid, write))
            && "m" in w.machines && w.machines["m"].obj.status.nodeRef.Some?
            && w.machines["m"].place.Node() == NODE && NODE !in w.nodes
            && (ValidRun(w, later) ==>
                  && "m" in Run(w, later).machines
                  && (SoleUserOfNode(Run(w, later), "m") ==> NODE !in Run(w, later).nodes))
  {
    BindingRunBinds(x, uid, write);
    var w := Run(EMPTY_WORLD, BindingRun(x, uid, write));
    if ValidRun(w, later) {
      SoleUserWasAlwaysSole(w, later, "m");
      if SoleUserOfNode(Run(w, later), "m") {
        UnwrittenNodeStaysUnwritten(w, later, "m");
      }
    }
  }

  const SECOND := RegisterMachine("n", Placement("c", "a-b", false), FRESH_MACHINE)

  const SECOND_CREATE := Creation("n", "other", false, WHOLE)

  /** A second machine whose name differs by a dot, its server, and its binding, whose write to the node is refused. */
  function SecondMachine(uid: string): seq<Label> {
    ([SECOND] + [SECOND_CREATE]) + [PoweredOnPoll("n", "other", M.NodeFound(uid, M.PatchFailed))]
  }

  lemma SecondMachineWaits(w: World)
    requires FirstBound(w)
    ensures Allowed(w, SECOND) && Waits(Step(w, SECOND), "n", "a-b")
    ensures var w' := Step(w, SECOND);
            w'.machines["m"] == w.machines["m"] && w'.servers == w.servers && w'.nodes == w.nodes && "m" in w'.machines
  {
  }

  lemma SecondMachineBinds(w: World, uid: string)
    requires S.ServersInv(w) && FirstBound(w)
    ensures ValidRun(w, SecondMachine(uid))
    ensures var w' := Run(w, SecondMachine(uid));
            && "n" in w'.machines && w'.machines["n"].place == Placement("c", "a-b", false)
            && w'.machines["n"].obj.status.nodeRef.Some? && M.GetMachineID(w'.machines["n"].obj) == "other"
            && w'.nodes == w.nodes
  {
    var poll := PoweredOnPoll("n", "other", M.NodeFound(uid, M.PatchFailed));
    SecondMachineWaits(w);
    S.StepKeepsServersInv(w, SECOND);
    var w1 := Step(w, SECOND);
    CreationWorks(w1, "n", "a-b", "other", false, WHOLE);
    S.StepKeepsServersInv(w1, SECOND_CREATE);
    PollIsAllowed(Step(w1, SECOND_CREATE), "n", "a-b", "other", poll.menv.node);
    PollBinds(Step(w1, SECOND_CREATE), "n", "a-b", "other", uid, M.PatchFailed);
    TwoSteps(w, SECOND, SECOND_CREATE);
    RunSplits(w, [SECOND] + [SECOND_CREATE], [poll]);
    RunOne(Step(w1, SECOND_CREATE), poll);
  }

  function ForeignRun(x: Ipv4.Address, uid: string): seq<Label> {
    BindingRun(x, uid, M.Patched) + SecondMachine(uid)
  }

  lemma SecondMachineEndsForeign(x: Ipv4.Address, uid: string)
    ensures ValidRun(EMPTY_WORLD, ForeignRun(x, uid))
    ensures var w := Run(EMPTY_WORLD, ForeignRun(x, uid));
            && "n" in w.machines && w.machines["n"].obj.status.nodeRef.Some? && w.machines["n"].place.Node() == NODE
            && M.GetMachineID(w.machines["n"].obj) == "other"
            && w.nodes == map[NODE := M.ProviderIDOf("server")]
  {
    var first := BindingRun(x, uid, M.Patched);
    BindingRunBinds(x, uid, M.Patched);
    SecondMachineBinds(Run(EMPTY_WORLD, first), uid);
    HostnamesCollideIff("a.b", "a-b");
    RunSplits(EMPTY_WORLD, first, SecondMachine(uid));
  }

  /**
   The machine "a-b" ends bound to the node of the machine "a.b", and that node carries the other
   machine's server, at the end of this run and of every later one.
   */
  lemma BoundToForeignNodeIsReachable(x: Ipv4.Address, uid: string, later: seq<Label>)
    ensures var w := Run(EMPTY_WORLD, ForeignRun(x, uid));
            && ValidRun(EMPTY_WORLD, ForeignRun(x, uid))
            && "n" in w.machines && w.machines["n"].obj.status.nodeRef.Some? && w.machines["n"].place.Node() == NODE
            && M.GetMachineID(w.machines["n"].obj) == "other"
            && NODE in w.nodes && w.nodes[NODE] == M.ProviderIDOf("server")
            && (ValidRun(w, later) ==>
                  NODE in Run(w, later).nodes && Run(w, later).nodes[NODE] == M.ProviderIDOf("server"))
  {
    SecondMachineEndsForeign(x, uid);
    if ValidRun(Run(EMPTY_WORLD, ForeignRun(x, uid)), later) {
      NodesAreWrittenOnce(Run(EMPTY_WORLD, ForeignRun(x, uid)), later, NODE);
    }
  }
}
