/**
 The order between the two controllers: a server is requested only once its cluster's block is
 recorded, unless one of two faults befalls that cluster. Each fault is exactly what breaks one
 of the two facts the order rests on.
 */
module ControllerOrder {
  import opened Wrappers
  import opened Api
  import opened TransitionSystem
  import opened BlockInvariant
  import opened BlockTheorems
  import opened BlockDeletion
  import M = MachineModel
  import C = ClusterModel
  import F = MachineFacts
  import T = ServerTheorems
  import Ipv4

  // ---------- the two faults ----------

  /** The reply brings an address that the cluster can write down. */
  predicate AddressArrives(c: Cluster, reply: Reply<ClusterStatus>) {
    c.annotations.Some? && Delivered(reply) && Ipv4.ControlPlaneText(reply.body.value.cidr).Some?
  }

  predicate AllocatesAddress(w: World, l: Label) {
    l.ReconcileCluster? && SendsBlockCreate(w, l.key, l.cenv) && AddressArrives(w.clusters[l.key].obj, l.cenv.reply)
  }

  /** No allocation is torn: if its status reaches the API server, its address does. */
  predicate Untorn(w: World, l: Label) {
    AllocatesAddress(w, l) && l.cenv.patch.status ==> l.cenv.patch.meta
  }

  /** No address is recorded from a reply without a block id. */
  predicate Named(w: World, l: Label) {
    AllocatesAddress(w, l) && l.cenv.patch.meta ==> l.cenv.reply.body.value.id != ""
  }

  predicate ReadyHasAddress(c: Cluster) {
    c.status.ready ==> C.GetIP(c) != ""
  }

  predicate AddressHasBlock(c: Cluster) {
    C.GetIP(c) != "" ==> C.GetIPAllocationID(c) != ""
  }

  // ---------- one reconcile ----------

  lemma ArrivedAddressIsNotEmpty(c: Cluster, reply: Reply<ClusterStatus>)
    requires AddressArrives(c, reply)
    ensures Ipv4.ControlPlaneText(reply.body.value.cidr).value != ""
  {
    Ipv4.DerivedTextNotEmpty(reply.body.value.cidr);
  }

  /** What one reconcile leaves ready: what was ready, an address just allocated, or a poll of a cluster with an address. */
  lemma ReadinessNeedsAddress(c: Cluster, env: C.ClusterEnv)
    requires C.GetIP(c) == "" && !c.status.ready
    ensures var eff := C.ReconcileEffect(c, env);
            eff.obj.status.ready <==> eff.call == Some(PostBlock) && AddressArrives(c, env.reply)
  {
  }

  /** A cluster is left ready without an address exactly when it allocates one and only the status patch arrives. */
  lemma ReadyWithoutAddressIffTorn(c: Cluster, env: C.ClusterEnv)
    requires ReadyHasAddress(c)
    ensures var eff := C.ReconcileEffect(c, env);
            !ReadyHasAddress(C.Persisted(c, eff.obj, env.patch)) <==>
              eff.call == Some(PostBlock) && AddressArrives(c, env.reply) && env.patch.status && !env.patch.meta
  {
    AllocationComesFromReply(c, env);
    if AddressArrives(c, env.reply) {
      ArrivedAddressIsNotEmpty(c, env.reply);
    }
    if C.GetIP(c) == "" {
      ReadinessNeedsAddress(c, env);
    } else if C.ReconcileEffect(c, env).call.Some? {
      CallsNameTheRecordedBlock(c, env);
    }
  }

  /** A reconcile leaves an address without a block exactly when it records one from a reply without an id. */
  lemma AddressWithoutBlockIffAnonymous(c: Cluster, env: C.ClusterEnv)
    requires AddressHasBlock(c)
    ensures var eff := C.ReconcileEffect(c, env);
            !AddressHasBlock(C.Persisted(c, eff.obj, env.patch)) <==>
              eff.call == Some(PostBlock) && AddressArrives(c, env.reply) && env.patch.meta
              && env.reply.body.value.id == ""
  {
    AllocationComesFromReply(c, env);
    if AddressArrives(c, env.reply) {
      ArrivedAddressIsNotEmpty(c, env.reply);
    }
    if C.GetIP(c) != "" && C.ReconcileEffect(c, env).call.Some? {
      CallsNameTheRecordedBlock(c, env);
    }
  }

  // ---------- whole runs ----------

  lemma StepKeepsReadyHasAddressIff(w: World, l: Label, k: Key)
    requires ClusterHas(w, k, ReadyHasAddress) && Allowed(w, l)
    ensures ClusterHas(Step(w, l), k, ReadyHasAddress) <==> (l.key == k ==> Untorn(w, l))
  {
    OnlyReconcilesBreakFacts(w, l, k, ReadyHasAddress);
    if l.ReconcileCluster? && l.key == k && ClusterPresent(w, k) {
      ReadyWithoutAddressIffTorn(w.clusters[k].obj, l.cenv);
    }
  }

  lemma StepKeepsAddressHasBlockIff(w: World, l: Label, k: Key)
    requires ClusterHas(w, k, AddressHasBlock) && Allowed(w, l)
    ensures ClusterHas(Step(w, l), k, AddressHasBlock) <==> (l.key == k ==> Named(w, l))
  {
    OnlyReconcilesBreakFacts(w, l, k, AddressHasBlock);
    if l.ReconcileCluster? && l.key == k && ClusterPresent(w, k) {
      AddressWithoutBlockIffAnonymous(w.clusters[k].obj, l.cenv);
    }
  }

  /** A cluster is ready only with an address, in every state of a run, exactly when none of its allocations is torn. */
  lemma ReadyHasAddressIffUntorn(labels: seq<Label>, k: Key)
    requires ValidRun(EMPTY_WORLD, labels)
    ensures Always(EMPTY_WORLD, labels, w => ClusterHas(w, k, ReadyHasAddress)) <==>
              Throughout(EMPTY_WORLD, labels, k, Untorn)
  {
    BlocksInvIsKept();
    forall v, l | ClusterHas(v, k, ReadyHasAddress) && Allowed(v, l)
      ensures ClusterHas(Step(v, l), k, ReadyHasAddress) <==> (l.key == k ==> Untorn(v, l))
    {
      StepKeepsReadyHasAddressIff(v, l, k);
    }
    AlwaysIffThroughout(EMPTY_WORLD, labels, k, BlocksInv, w => ClusterHas(w, k, ReadyHasAddress), Untorn);
  }

  /**
   A cluster has an address only with a recorded block, in every state of a run, exactly when it
   never recorded one from a reply without an id.
   */
  lemma AddressHasBlockIffNamed(labels: seq<Label>, k: Key)
    requires ValidRun(EMPTY_WORLD, labels)
    ensures Always(EMPTY_WORLD, labels, w => ClusterHas(w, k, AddressHasBlock)) <==>
              Throughout(EMPTY_WORLD, labels, k, Named)
    ensures Throughout(EMPTY_WORLD, labels, k, Named) ==> ClusterHas(Run(EMPTY_WORLD, labels), k, AddressHasBlock)
  {
    BlocksInvIsKept();
    forall v, l | ClusterHas(v, k, AddressHasBlock) && Allowed(v, l)
      ensures ClusterHas(Step(v, l), k, AddressHasBlock) <==> (l.key == k ==> Named(v, l))
    {
      StepKeepsAddressHasBlockIff(v, l, k);
    }
    AlwaysIffThroughout(EMPTY_WORLD, labels, k, BlocksInv, w => ClusterHas(w, k, AddressHasBlock), Named);
  }

  /** The cluster is ready, and its infrastructure is declared ready, only with an address recorded. */
  predicate OrderInv(w: World, k: Key) {
    && ClusterHas(w, k, ReadyHasAddress)
    && (k in w.infrastructureReady ==> k in w.clusters && C.GetIP(w.clusters[k].obj) != "")
  }

  lemma InfrastructureChangesByLabel(w: World, l: Label)
    ensures Step(w, l).infrastructureReady ==
              if l.SetInfrastructureReady? then
                if l.value then w.infrastructureReady + {l.key} else w.infrastructureReady - {l.key}
              else w.infrastructureReady
  {
  }

  lemma StepKeepsOrderInv(w: World, l: Label, k: Key)
    requires OrderInv(w, k) && Allowed(w, l) && (l.key == k ==> Untorn(w, l))
    ensures OrderInv(Step(w, l), k)
  {
    InfrastructureChangesByLabel(w, l);
    StepKeepsReadyHasAddressIff(w, l, k);
    if k in w.clusters {
      StepEndures(w, l, k);
    }
  }

  lemma {:induction false} RunKeepsOrderInv(w: World, labels: seq<Label>, k: Key)
    requires OrderInv(w, k) && ValidRun(w, labels) && Throughout(w, labels, k, Untorn)
    ensures OrderInv(Run(w, labels), k)
    decreases |labels|
  {
    if labels != [] {
      StepKeepsOrderInv(w, labels[0], k);
      RunKeepsOrderInv(Step(w, labels[0]), labels[1..], k);
    }
  }

  /**
   Where no allocation of its cluster is torn, a server is only ever requested after the cluster's
   address has been allocated and recorded. A control-plane server without a VIP manager names exactly the
   recorded block, which is there, and every other server names none.
   */
  lemma ServersFollowTheAddress(w: World, labels: seq<Label>, k: Key, env: M.MachineEnv)
    requires T.Reached(w, labels) && SendsServerCreate(w, k, env)
    requires Throughout(EMPTY_WORLD, labels, w.machines[k].place.cluster, Untorn)
    ensures var p := w.machines[k].place;
            && ClusterPresent(w, p.cluster)
            && var c := w.clusters[p.cluster].obj;
               var id := C.GetIPAllocationID(c);
               && C.GetIP(c) != "" && Allocated(w.log, p.cluster, id, C.GetIP(c))
               && MachineEffectIn(w, k, env).call ==
                    Some(PostServer(if p.controlPlane && c.vip == NONE then [id] else []))
               && (p.controlPlane && c.vip == NONE ==> id != "")
  {
    RunKeepsOrderInv(EMPTY_WORLD, labels, w.machines[k].place.cluster);
    ReachedKeepsBlocksInv(w, labels);
    F.CallsNameTheRecordedServer(w.machines[k].obj, SiteOf(w, k), EnvSeen(w, k, env));
    var p := w.machines[k].place;
    assert ClusterOK(w.blocks, w.log, p.cluster, w.clusters[p.cluster]);
    var blocks := M.BlocksFor(SiteOf(w, k));
    assert p.controlPlane && w.clusters[p.cluster].obj.vip == NONE ==> blocks[0] in blocks;
  }

  /** A recorded block of a stored cluster was allocated for it and is not lost; only a deleted cluster has released it. */
  lemma RecordedBlockIsAlive(w: World, labels: seq<Label>, k: Key)
    requires T.Reached(w, labels) && ClusterPresent(w, k) && C.GetIPAllocationID(w.clusters[k].obj) != ""
    ensures var id := C.GetIPAllocationID(w.clusters[k].obj);
            && id in AllocatedFor(w, k) && id !in w.lostBlocks
            && (w.blocks[id].released ==> w.clusters[k].obj.deleting)
  {
    ReachedKeepsBlocksInv(w, labels);
    var id := C.GetIPAllocationID(w.clusters[k].obj);
    assert ClusterOK(w.blocks, w.log, k, w.clusters[k]);
    assert BlockOK(w, id);
  }

  /**
   Where, besides, the cluster recorded no address from a reply without an id, its block is
   recorded, was allocated for it, and is not lost; only a deleted cluster can have released it.
   */
  lemma ServersFollowTheBlock(w: World, labels: seq<Label>, k: Key, env: M.MachineEnv)
    requires T.Reached(w, labels) && SendsServerCreate(w, k, env)
    requires Throughout(EMPTY_WORLD, labels, w.machines[k].place.cluster, Untorn)
    requires Throughout(EMPTY_WORLD, labels, w.machines[k].place.cluster, Named)
    ensures var p := w.machines[k].place;
            && ClusterPresent(w, p.cluster)
            && var c := w.clusters[p.cluster].obj;
               var id := C.GetIPAllocationID(c);
               && id != "" && id in AllocatedFor(w, p.cluster) && id !in w.lostBlocks
               && (w.blocks[id].released ==> c.deleting)
               && C.GetIP(c) != "" && Allocated(w.log, p.cluster, id, C.GetIP(c))
               && MachineEffectIn(w, k, env).call ==
                    Some(PostServer(if p.controlPlane && c.vip == NONE then [id] else []))
  {
    ServersFollowTheAddress(w, labels, k, env);
    var p := w.machines[k].place;
    AddressHasBlockIffNamed(labels, p.cluster);
    assert AddressHasBlock(w.clusters[p.cluster].obj);
    RecordedBlockIsAlive(w, labels, p.cluster);
  }

  // ---------- the two runs in which the order is broken ----------

  const FRESH_MACHINE := Machine({}, Some(map[]), false, None, EMPTY_MACHINE_STATUS)

  const INFRASTRUCTURE_READY := SetInfrastructureReady("c", true)

  /** The name of the first machine has a dot in it. */
  const REGISTER_MACHINE := RegisterMachine("m", Placement("c", "a.b", false), FRESH_MACHINE)

  /** A new cluster allocates its block, is declared ready, and gets its first machine. */
  function Preparation(x: Ipv4.Address, id: string, patch: Patch): seq<Label> {
    ([REGISTER_CLUSTER] + [Allocation(x, id, patch)]) + ([INFRASTRUCTURE_READY] + [REGISTER_MACHINE])
  }

  /** A ready cluster, seen by the first machine of the world. */
  predicate ReadyForFirstMachine(w: World) {
    && w.machines == map[] && w.servers == map[] && w.nodes == map[] && ClusterPresent(w, "c")
    && w.clusters["c"].obj.status.ready && w.clusters["c"].obj.vip == KUBEVIP
  }

  /** A machine waits for its server with every gate open. */
  predicate Waits(w: World, k: Key, name: string) {
    && MachinePresent(w, k) && w.machines[k].place == Placement("c", name, false)
    && ClusterPresent(w, "c") && w.clusters["c"].obj.vip == KUBEVIP && "c" in w.infrastructureReady
    && var m := w.machines[k].obj;
       !m.deleting && M.GetMachineID(m) == "" && m.annotations.Some? && m.status.nodeRef == None
  }

  /** It is the first machine of the world. */
  predicate FirstWaits(w: World) {
    && Waits(w, "m", "a.b") && w.machines["m"].obj == FRESH_MACHINE && w.machines.Keys == {"m"}
    && w.servers == map[] && w.nodes == map[]
  }

  lemma FirstMachineWaits(w: World)
    requires ReadyForFirstMachine(w)
    ensures Allowed(w, INFRASTRUCTURE_READY) && Allowed(Step(w, INFRASTRUCTURE_READY), REGISTER_MACHINE)
    ensures var w' := Step(Step(w, INFRASTRUCTURE_READY), REGISTER_MACHINE);
            FirstWaits(w') && w'.clusters == w.clusters && w'.blocks == w.blocks && w'.lostBlocks == w.lostBlocks
  {
  }

  lemma WaitingMachineSendsCreate(w: World, k: Key, name: string, env: M.MachineEnv)
    requires Waits(w, k, name) && env.gate == M.Open && env.secret == M.Available
    ensures SendsServerCreate(w, k, env)
  {
  }

  lemma AllocationReadies(x: Ipv4.Address, id: string, patch: Patch)
    requires patch.status
    ensures var w := Step(Step(EMPTY_WORLD, REGISTER_CLUSTER), Allocation(x, id, patch));
            && ReadyForFirstMachine(w)
            && var c := w.clusters["c"].obj;
               && C.GetIPAllocationID(c) == (if patch.meta then id else "")
               && C.GetIP(c) == (if patch.meta then Ipv4.Text(Ipv4.Next(x)) else "")
  {
    AllocationResult(x, id, patch);
  }

  /** Every preparation whose status patch arrives leads to a machine that waits for its server. */
  lemma PreparationWorks(x: Ipv4.Address, id: string, patch: Patch)
    requires patch.status
    ensures ValidRun(EMPTY_WORLD, Preparation(x, id, patch))
    ensures var w := Run(EMPTY_WORLD, Preparation(x, id, patch));
            && FirstWaits(w)
            && w.lostBlocks == Step(Step(EMPTY_WORLD, REGISTER_CLUSTER), Allocation(x, id, patch)).lostBlocks
            && var c := w.clusters["c"].obj;
               && C.GetIPAllocationID(c) == (if patch.meta then id else "")
               && C.GetIP(c) == (if patch.meta then Ipv4.Text(Ipv4.Next(x)) else "")
  {
    AllocationIsAllowed(x, id, patch);
    AllocationReadies(x, id, patch);
    FirstMachineWaits(Step(Step(EMPTY_WORLD, REGISTER_CLUSTER), Allocation(x, id, patch)));
    FourSteps(EMPTY_WORLD, REGISTER_CLUSTER, Allocation(x, id, patch), INFRASTRUCTURE_READY, REGISTER_MACHINE);
  }

  /** One torn allocation is enough for a server to be requested while no block and no address is recorded. */
  lemma TornAllocationBreaksTheOrder(x: Ipv4.Address, id: string, env: M.MachineEnv)
    requires env.gate == M.Open && env.secret == M.Available
    ensures var run := Preparation(x, id, Patch(false, true));
            var w := Run(EMPTY_WORLD, run);
            && ValidRun(EMPTY_WORLD, run) && SendsServerCreate(w, "m", env)
            && ClusterPresent(w, "c") && w.machines["m"].place.cluster == "c"
            && C.GetIP(w.clusters["c"].obj) == "" && C.GetIPAllocationID(w.clusters["c"].obj) == ""
  {
    PreparationWorks(x, id, Patch(false, true));
    WaitingMachineSendsCreate(Run(EMPTY_WORLD, Preparation(x, id, Patch(false, true))), "m", "a.b", env);
  }

  lemma AnonymousBlockIsLost(x: Ipv4.Address)
    ensures Step(Step(EMPTY_WORLD, REGISTER_CLUSTER), Allocation(x, "", Patch(true, true))).lostBlocks
              == map["block" := EmptyBlockID]
  {
    AllocationResult(x, "", Patch(true, true));
  }

  /** One block without an id is enough for a server to be requested while none is recorded and the block is lost. */
  lemma AnonymousBlockBreaksTheOrder(x: Ipv4.Address, env: M.MachineEnv)
    requires env.gate == M.Open && env.secret == M.Available
    ensures var run := Preparation(x, "", Patch(true, true));
            var w := Run(EMPTY_WORLD, run);
            && ValidRun(EMPTY_WORLD, run) && SendsServerCreate(w, "m", env)
            && ClusterPresent(w, "c") && w.machines["m"].place.cluster == "c"
            && C.GetIP(w.clusters["c"].obj) == Ipv4.Text(Ipv4.Next(x)) && C.GetIPAllocationID(w.clusters["c"].obj) == ""
            && w.lostBlocks == map["block" := EmptyBlockID]
  {
    PreparationWorks(x, "", Patch(true, true));
    AnonymousBlockIsLost(x);
    WaitingMachineSendsCreate(Run(EMPTY_WORLD, Preparation(x, "", Patch(true, true))), "m", "a.b", env);
  }
}
