/** What the block invariant means for whole runs. */
module BlockTheorems {
  import opened Wrappers
  import opened Api
  import opened TransitionSystem
  import opened BlockInvariant
  import C = ClusterModel
  import T = ServerTheorems
  import Ipv4

  lemma ReachedKeepsBlocksInv(w: World, labels: seq<Label>)
    requires T.Reached(w, labels)
    ensures BlocksInv(w)
  {
    RunKeepsBlocksInv(EMPTY_WORLD, labels);
  }

  lemma BlocksInvIsKept()
    ensures forall v, l :: BlocksInv(v) && Allowed(v, l) ==> BlocksInv(Step(v, l))
  {
    forall v, l | BlocksInv(v) && Allowed(v, l)
      ensures BlocksInv(Step(v, l))
    {
      StepKeepsBlocksInv(v, l);
    }
  }

  // ---------- conservation ----------

  function AllocatedFor(w: World, k: Key): set<string> {
    set b | b in w.blocks && w.blocks[b].owner == k
  }

  function RecordedBlockOf(w: World, k: Key): set<string> {
    set b | b in AllocatedFor(w, k) && !w.blocks[b].released && ClusterPresent(w, k)
            && C.GetIPAllocationID(w.clusters[k].obj) == b
  }

  function DeletedOf(w: World, k: Key): set<string> {
    set b | b in AllocatedFor(w, k) && w.blocks[b].released
  }

  function LostBlocksOf(w: World, k: Key): set<string> {
    set b | b in AllocatedFor(w, k) && b in w.lostBlocks
  }

  function LostInAllocation(w: World, k: Key): set<string> {
    set b | b in LostBlocksOf(w, k) && AllocationFault(w.lostBlocks[b])
  }

  lemma RecordedDeletedOrLost(w: World, k: Key, b: string)
    requires b in AllocatedFor(w, k) && BlockOK(w, b)
    ensures b in RecordedBlockOf(w, k) || b in DeletedOf(w, k) || b in LostBlocksOf(w, k)
    ensures !(b in RecordedBlockOf(w, k) && b in LostBlocksOf(w, k)) && !(b in DeletedOf(w, k) && b in LostBlocksOf(w, k))
  {
  }

  /** Every block ever allocated for a cluster is recorded by it, deleted, or lost with a named cause; never two of these. */
  lemma BlocksAreConserved(w: World, labels: seq<Label>, k: Key)
    requires T.Reached(w, labels)
    ensures AllocatedFor(w, k) == RecordedBlockOf(w, k) + DeletedOf(w, k) + LostBlocksOf(w, k)
    ensures |AllocatedFor(w, k)| == |RecordedBlockOf(w, k)| + |DeletedOf(w, k)| + |LostBlocksOf(w, k)|
  {
    ReachedKeepsBlocksInv(w, labels);
    forall b | b in AllocatedFor(w, k)
      ensures b in RecordedBlockOf(w, k) + DeletedOf(w, k) + LostBlocksOf(w, k)
      ensures !(b in RecordedBlockOf(w, k) && b in LostBlocksOf(w, k)) && !(b in DeletedOf(w, k) && b in LostBlocksOf(w, k))
    {
      assert BlockOK(w, b);
      RecordedDeletedOrLost(w, k, b);
    }
    T.PartitionSizes(AllocatedFor(w, k), RecordedBlockOf(w, k), DeletedOf(w, k), LostBlocksOf(w, k));
  }

  lemma KeptBlockIsRecorded(w: World, k: Key, b: string)
    requires b in AllocatedFor(w, k) && BlockOK(w, b) && b !in LostInAllocation(w, k)
    ensures k in w.clusters && b == C.GetIPAllocationID(w.clusters[k].obj)
  {
  }

  /** Beyond the first block of a cluster, each further one is the price of a fault during allocation. */
  lemma ExtraBlocksAreAllocationFaults(w: World, labels: seq<Label>, k: Key)
    requires T.Reached(w, labels)
    ensures |AllocatedFor(w, k)| <= 1 + |LostInAllocation(w, k)|
  {
    ReachedKeepsBlocksInv(w, labels);
    var current := if k in w.clusters then C.GetIPAllocationID(w.clusters[k].obj) else "";
    forall b | b in AllocatedFor(w, k)
      ensures b in LostInAllocation(w, k) || b == current
    {
      assert BlockOK(w, b);
      if b !in LostInAllocation(w, k) {
        KeptBlockIsRecorded(w, k, b);
      }
    }
    T.AtMostOneMore(AllocatedFor(w, k), LostInAllocation(w, k), current);
  }

  /**
   Nothing goes wrong with an allocation: a block comes with a delivered id and a well-formed
   CIDR, and the cluster's annotations can be, and are, written down.
   */
  predicate FaultFreeAllocation(w: World, l: Label) {
    l.ReconcileCluster? && SendsBlockCreate(w, l.key, l.cenv) && (l.made.Some? || Delivered(l.cenv.reply)) ==>
      && Delivered(l.cenv.reply) && l.cenv.reply.body.value.id != ""
      && Ipv4.ControlPlaneText(l.cenv.reply.body.value.cidr).Some?
      && w.clusters[l.key].obj.annotations.Some? && l.cenv.patch.meta
  }

  /** Without allocation faults a block is only recorded together with its address. */
  predicate RecordedWithAddress(w: World, k: Key) {
    k in w.clusters && C.GetIPAllocationID(w.clusters[k].obj) != "" ==> C.GetIP(w.clusters[k].obj) != ""
  }

  lemma FaultFreeMoveLosesNothing(w: World, k: Key, v: Move, b: string)
    requires Lawful(w, k, v) && ClusterOK(w.blocks, w.log, k, w.clusters[k]) && RecordedWithAddress(w, k)
    requires v.call == Some(PostBlock) && (v.made.Some? || Delivered(v.reply)) ==>
               && Delivered(v.reply) && v.reply.body.value.id != ""
               && w.clusters[k].obj.annotations.Some? && v.patch.meta
    requires b in Moved(w, k, v).lostBlocks && AllocationFault(Moved(w, k, v).lostBlocks[b])
    ensures b in w.lostBlocks
  {
  }

  lemma OtherMoveLosesNothing(w: World, j: Key, v: Move, k: Key, b: string)
    requires Lawful(w, j, v) && ClusterOK(w.blocks, w.log, j, w.clusters[j]) && j != k
    requires b in LostInAllocation(Moved(w, j, v), k) && (b in w.lostBlocks ==> b in w.blocks)
    ensures b in w.lostBlocks
  {
    if b !in w.lostBlocks {
      LossesOfBlockMove(w, j, v, b);
      OwnBlocksStayOwn(w, j, v, b);
    }
  }

  lemma OwnBlocksStayOwn(w: World, j: Key, v: Move, b: string)
    requires Lawful(w, j, v) && b in Moved(w, j, v).blocks
    requires (v.call == Some(PostBlock) && v.made == Some(b)) || (b in w.blocks && w.blocks[b].owner == j)
    ensures Moved(w, j, v).blocks[b].owner == j
  {
    assert Moved(w, j, v).blocks == CloudAfter(w.blocks, j, v.call, v.reply, v.made);
  }

  lemma ReconcileFaultsLoseInAllocation(w: World, l: Label, k: Key, b: string)
    requires BlocksInv(w) && Allowed(w, l) && (l.key == k ==> FaultFreeAllocation(w, l)) && RecordedWithAddress(w, k)
    requires l.ReconcileCluster? && ClusterPresent(w, l.key) && b in LostInAllocation(Step(w, l), k)
    ensures b in w.lostBlocks
  {
    var v := MoveOf(w, l.key, l.cenv, l.made);
    ReconcileIsLawful(w, l.key, l.cenv, l.made);
    assert Step(w, l) == Moved(w, l.key, v);
    assert ClusterOK(w.blocks, w.log, l.key, w.clusters[l.key]);
    if l.key == k {
      FaultFreeMoveLosesNothing(w, k, v, b);
    } else {
      OtherMoveLosesNothing(w, l.key, v, k, b);
    }
  }

  lemma OnlyFaultsLoseInAllocation(w: World, l: Label, k: Key, b: string)
    requires BlocksInv(w) && Allowed(w, l) && (l.key == k ==> FaultFreeAllocation(w, l)) && RecordedWithAddress(w, k)
    requires b in LostInAllocation(Step(w, l), k)
    ensures b in w.lostBlocks
  {
    if b !in w.lostBlocks {
      EveryBlockLossIsCharged(w, l, b);
      ReconcileFaultsLoseInAllocation(w, l, k, b);
    }
  }

  predicate EditsCluster(l: Label, k: Key) {
    (l.MarkClusterDeleted? || l.EditClusterFinalizers?) && l.key == k
  }

  lemma EditLeavesCluster(w: World, l: Label, k: Key)
    requires k in w.clusters && EditsCluster(l, k)
    ensures k in Step(w, l).clusters
    ensures var c, c' := w.clusters[k].obj, Step(w, l).clusters[k].obj;
            c'.annotations == c.annotations && c'.endpoint == c.endpoint && c'.status == c.status
  {
  }

  lemma ForeignStepLeavesCluster(w: World, l: Label, k: Key)
    requires k in w.clusters && !(l.ReconcileCluster? && l.key == k) && !EditsCluster(l, k)
    ensures k in Step(w, l).clusters && Step(w, l).clusters[k] == w.clusters[k]
  {
    if l.ReconcileMachine? && MachinePresent(w, l.key) {
      MachineStepLeavesBlocks(w, l);
    }
  }

  /** Only its own reconcile touches the annotations, the endpoint or the status of a cluster. */
  lemma OtherStepsLeaveCluster(w: World, l: Label, k: Key)
    requires k in w.clusters && !(l.ReconcileCluster? && l.key == k)
    ensures k in Step(w, l).clusters
    ensures var c, c' := w.clusters[k].obj, Step(w, l).clusters[k].obj;
            c'.annotations == c.annotations && c'.endpoint == c.endpoint && c'.status == c.status
  {
    if EditsCluster(l, k) {
      EditLeavesCluster(w, l, k);
    } else {
      ForeignStepLeavesCluster(w, l, k);
    }
  }

  lemma NewClustersArePristine(w: World, l: Label, k: Key)
    requires Allowed(w, l) && k !in w.clusters && k in Step(w, l).clusters
    ensures PristineCluster(Step(w, l).clusters[k].obj)
  {
    if l.ReconcileMachine? && MachinePresent(w, l.key) {
      MachineStepLeavesBlocks(w, l);
    }
  }

  lemma FaultFreeReconcileRecordsAddress(w: World, k: Key, env: C.ClusterEnv, made: Option<string>)
    requires ClusterPresent(w, k) && FaultFreeAllocation(w, ReconcileCluster(k, env, made)) && RecordedWithAddress(w, k)
    ensures RecordedWithAddress(StepCluster(w, k, env, made), k)
  {
    AllocationComesFromReply(w.clusters[k].obj, env);
    if Delivered(env.reply) && Ipv4.ControlPlaneText(env.reply.body.value.cidr).Some? {
      Ipv4.DerivedTextNotEmpty(env.reply.body.value.cidr);
    }
  }

  lemma FaultFreeKeepsRecordedWithAddress(w: World, l: Label, k: Key)
    requires Allowed(w, l) && (l.key == k ==> FaultFreeAllocation(w, l)) && RecordedWithAddress(w, k)
    ensures RecordedWithAddress(Step(w, l), k)
  {
    if k in Step(w, l).clusters {
      if k !in w.clusters {
        NewClustersArePristine(w, l, k);
      } else if !(l.ReconcileCluster? && l.key == k) {
        OtherStepsLeaveCluster(w, l, k);
      } else if ClusterPresent(w, k) {
        FaultFreeReconcileRecordsAddress(w, k, l.cenv, l.made);
      }
    }
  }

  lemma {:induction false} FaultFreeAllocationsLoseNothing(w: World, labels: seq<Label>, k: Key)
    requires BlocksInv(w) && ValidRun(w, labels) && Throughout(w, labels, k, FaultFreeAllocation)
    requires RecordedWithAddress(w, k) && LostInAllocation(w, k) == {}
    ensures LostInAllocation(Run(w, labels), k) == {}
    decreases |labels|
  {
    if labels != [] {
      var w' := Step(w, labels[0]);
      StepKeepsBlocksInv(w, labels[0]);
      FaultFreeKeepsRecordedWithAddress(w, labels[0], k);
      forall b | b in LostInAllocation(w', k)
        ensures b in LostInAllocation(w, k)
      {
        OnlyFaultsLoseInAllocation(w, labels[0], k, b);
        BlockLossesAreFinal(w, labels[0], b);
        BlocksKeepOwner(w, labels[0], b);
      }
      FaultFreeAllocationsLoseNothing(w', labels[1..], k);
    }
  }

  lemma BlocksKeepOwner(w: World, l: Label, b: string)
    requires Allowed(w, l) && b in w.blocks
    ensures b in Step(w, l).blocks && Step(w, l).blocks[b].owner == w.blocks[b].owner
  {
    if l.ReconcileCluster? && ClusterPresent(w, l.key) {
      var call := C.ReconcileEffect(w.clusters[l.key].obj, l.cenv).call;
      assert Step(w, l).blocks == CloudAfter(w.blocks, l.key, call, l.cenv.reply, l.made);
    } else if l.ReconcileMachine? && MachinePresent(w, l.key) {
      MachineStepLeavesBlocks(w, l);
    }
  }

  lemma MoveKeepsCause(w: World, k: Key, v: Move, b: string)
    requires Lawful(w, k, v) && ClusterOK(w.blocks, w.log, k, w.clusters[k])
    requires b in w.blocks && b in w.lostBlocks && BlockOK(w, b)
    ensures b in Moved(w, k, v).lostBlocks && Moved(w, k, v).lostBlocks[b] == w.lostBlocks[b]
  {
    CallKeepsOldAccounts(w, k, v, b);
  }

  lemma StoringKeepsBlockCause(w: World, k: Key, c: Cluster, b: string)
    requires ClusterPresent(w, k) && b in w.blocks && b in w.lostBlocks && BlockOK(w, b)
    requires ClusterOK(w.blocks, w.log, k, w.clusters[k])
    requires c.annotations == w.clusters[k].obj.annotations
    ensures b in StoreCluster(w, k, c).lostBlocks && StoreCluster(w, k, c).lostBlocks[b] == w.lostBlocks[b]
  {
  }

  lemma EditKeepsBlockCause(w: World, l: Label, b: string)
    requires BlocksInv(w) && b in w.lostBlocks
    requires (l.MarkClusterDeleted? || l.EditClusterFinalizers?) && ClusterPresent(w, l.key)
    ensures b in Step(w, l).lostBlocks && Step(w, l).lostBlocks[b] == w.lostBlocks[b]
  {
    assert b in w.blocks && BlockOK(w, b);
    var c := w.clusters[l.key].obj;
    assert ClusterOK(w.blocks, w.log, l.key, w.clusters[l.key]);
    if l.MarkClusterDeleted? {
      StoringKeepsBlockCause(w, l.key, c.(deleting := true), b);
    } else {
      StoringKeepsBlockCause(w, l.key,
        c.(finalizers := Edited(c.finalizers, ClusterFinalizer, l.foreign)), b);
    }
  }

  lemma ReconcileKeepsBlockCause(w: World, k: Key, env: C.ClusterEnv, made: Option<string>, b: string)
    requires BlocksInv(w) && Allowed(w, ReconcileCluster(k, env, made)) && ClusterPresent(w, k) && b in w.lostBlocks
    ensures b in StepCluster(w, k, env, made).lostBlocks
    ensures StepCluster(w, k, env, made).lostBlocks[b] == w.lostBlocks[b]
  {
    assert b in w.blocks && BlockOK(w, b);
    ReconcileIsLawful(w, k, env, made);
    assert ClusterOK(w.blocks, w.log, k, w.clusters[k]);
    MoveKeepsCause(w, k, MoveOf(w, k, env, made), b);
    assert StepCluster(w, k, env, made) == Moved(w, k, MoveOf(w, k, env, made));
  }

  /** The ledger only grows and never changes a cause. */
  lemma BlockLossesAreFinal(w: World, l: Label, b: string)
    requires BlocksInv(w) && Allowed(w, l) && b in w.lostBlocks
    ensures b in Step(w, l).lostBlocks && Step(w, l).lostBlocks[b] == w.lostBlocks[b]
  {
    if l.ReconcileCluster? && ClusterPresent(w, l.key) {
      ReconcileKeepsBlockCause(w, l.key, l.cenv, l.made, b);
    } else if (l.MarkClusterDeleted? || l.EditClusterFinalizers?) && ClusterPresent(w, l.key) {
      EditKeepsBlockCause(w, l, b);
    } else if l.ReconcileMachine? && MachinePresent(w, l.key) {
      MachineStepLeavesBlocks(w, l);
    }
  }

  /** A run without allocation faults for a cluster allocates at most one block for it. */
  lemma FaultFreeRunAllocatesAtMostOneBlock(w: World, labels: seq<Label>, k: Key)
    requires T.Reached(w, labels) && Throughout(EMPTY_WORLD, labels, k, FaultFreeAllocation)
    ensures |AllocatedFor(w, k)| <= 1
  {
    FaultFreeAllocationsLoseNothing(EMPTY_WORLD, labels, k);
    ExtraBlocksAreAllocationFaults(w, labels, k);
  }

  // ---------- the endpoint ----------

  /** A recorded address is the published endpoint and comes from the very block that is recorded. */
  lemma EndpointAgrees(w: World, labels: seq<Label>, k: Key)
    requires T.Reached(w, labels) && k in w.clusters && C.GetIP(w.clusters[k].obj) != ""
    ensures var c := w.clusters[k].obj;
            && c.endpoint.host == C.GetIP(c) && c.endpoint.port == 6443
            && Allocated(w.log, k, C.GetIPAllocationID(c), C.GetIP(c))
            && (C.GetIPAllocationID(c) != "" ==> C.GetIPAllocationID(c) in AllocatedFor(w, k))
  {
    ReachedKeepsBlocksInv(w, labels);
    assert ClusterOK(w.blocks, w.log, k, w.clusters[k]);
  }

  /** What later states of a cluster keep of an earlier one. */
  predicate Endures(c: Cluster, c': Cluster) {
    && (c.status.ready ==> c'.status.ready)
    && (C.GetIP(c) != "" ==>
          C.GetIP(c') == C.GetIP(c) && C.GetIPAllocationID(c') == C.GetIPAllocationID(c) && c'.endpoint == c.endpoint)
  }

  lemma ReconcileEndures(w: World, k: Key, env: C.ClusterEnv, made: Option<string>)
    requires ClusterPresent(w, k)
    ensures Endures(w.clusters[k].obj, StepCluster(w, k, env, made).clusters[k].obj)
  {
    ReadinessIsKept(w.clusters[k].obj, env);
    if C.GetIP(w.clusters[k].obj) != "" {
      PublishedEndpointIsKept(w.clusters[k].obj, env);
    }
  }

  lemma StepEndures(w: World, l: Label, k: Key)
    requires k in w.clusters
    ensures k in Step(w, l).clusters && Endures(w.clusters[k].obj, Step(w, l).clusters[k].obj)
  {
    if l.ReconcileCluster? && l.key == k {
      if ClusterPresent(w, k) {
        ReconcileEndures(w, k, l.cenv, l.made);
      }
    } else {
      OtherStepsLeaveCluster(w, l, k);
    }
  }

  /** Over any later part of a run the address, the endpoint and the allocation stay, and Ready never falls. */
  lemma {:induction false} EndpointIsStable(w: World, labels: seq<Label>, k: Key)
    requires k in w.clusters
    ensures k in Run(w, labels).clusters && Endures(w.clusters[k].obj, Run(w, labels).clusters[k].obj)
    decreases |labels|
  {
    if labels != [] {
      StepEndures(w, labels[0], k);
      EndpointIsStable(Step(w, labels[0]), labels[1..], k);
    }
  }

  /** A cluster that goes away with a block has asked for its deletion or found it in use. */
  lemma RecordedBlockIsGuarded(w: World, labels: seq<Label>, k: Key)
    requires T.Reached(w, labels) && k in w.clusters && C.GetIPAllocationID(w.clusters[k].obj) != ""
    ensures var c := w.clusters[k].obj;
            && (!c.deleting ==> ClusterFinalizer in c.finalizers)
            && (w.clusters[k].gone ==> DeleteSent(w.log, k, C.GetIPAllocationID(c)) || c.status.bmcStatus != NotAssigned)
  {
    ReachedKeepsBlocksInv(w, labels);
    assert ClusterOK(w.blocks, w.log, k, w.clusters[k]);
  }

  // ---------- facts about a cluster ----------

  predicate ClusterHas(w: World, k: Key, fact: Cluster -> bool) {
    k in w.clusters ==> fact(w.clusters[k].obj)
  }

  /** A fact about annotations and status that new clusters satisfy. */
  ghost predicate Inherited(fact: Cluster -> bool) {
    && (forall c :: PristineCluster(c) ==> fact(c))
    && (forall c: Cluster, c': Cluster :: fact(c) && c'.annotations == c.annotations && c'.status == c.status ==> fact(c'))
  }

  /** What the reconcile of this step, if it is one of a cluster, leaves stored. */
  predicate Leaves(w: World, l: Label, fact: Cluster -> bool) {
    l.ReconcileCluster? && ClusterPresent(w, l.key) ==>
      var c := w.clusters[l.key].obj;
      fact(C.Persisted(c, C.ReconcileEffect(c, l.cenv).obj, l.cenv.patch))
  }

  /** An inherited fact about a cluster is only ever broken by what its own reconcile leaves stored. */
  lemma OnlyReconcilesBreakFacts(w: World, l: Label, k: Key, fact: Cluster -> bool)
    requires Inherited(fact) && ClusterHas(w, k, fact) && Allowed(w, l)
    ensures ClusterHas(Step(w, l), k, fact) <==> (l.key == k ==> Leaves(w, l, fact))
  {
    var w' := Step(w, l);
    if k !in w.clusters {
      if k in w'.clusters {
        NewClustersArePristine(w, l, k);
      }
    } else if !(l.ReconcileCluster? && l.key == k) {
      OtherStepsLeaveCluster(w, l, k);
    } else if ClusterPresent(w, k) {
      var c := w.clusters[k].obj;
      assert w'.clusters[k].obj == C.Persisted(c, C.ReconcileEffect(c, l.cenv).obj, l.cenv.patch);
    }
  }

  // ---------- panics ----------

  /**
   A cluster's reconcile panics exactly when a delivered allocation meets a nil annotation map or a
   CIDR that is no address, or when the DELETE of an unassigned block is not answered.
   */
  lemma ClusterPanicsIff(c: Cluster, env: C.ClusterEnv)
    ensures C.ReconcileEffect(c, env).result == Panicked <==>
              && env.gate == C.Open
              && if c.deleting then c.status.bmcStatus == NotAssigned && env.reply == TransportError
                 else C.GetIP(c) == "" && Delivered(env.reply)
                      && (c.annotations.None? || Ipv4.ControlPlaneText(env.reply.body.value.cidr).None?)
  {
  }

  // ---------- what each lost block is charged to ----------

  predicate AllocationCharged(w: World, l: Label, b: string) {
    l.ReconcileCluster? && l.made == Some(b) && SendsBlockCreate(w, l.key, l.cenv)
  }

  predicate BlockDisappears(w: World, l: Label, b: string) {
    b in w.blocks && !w.blocks[b].released && ClusterPresent(w, w.blocks[b].owner)
    && C.GetIPAllocationID(w.clusters[w.blocks[b].owner].obj) == b
    && !ClusterPresent(Step(w, l), w.blocks[b].owner)
  }

  /** What happened in the step that added a block to the ledger of losses. */
  predicate BlockCharged(w: World, l: Label, b: string, loss: BlockLoss) {
    match loss
    case BlockReplyLost => AllocationCharged(w, l, b) && !Accepted(l.cenv.reply)
    case BlockReplyUndecodable => AllocationCharged(w, l, b) && Accepted(l.cenv.reply) && l.cenv.reply.body.None?
    case EmptyBlockID => AllocationCharged(w, l, b) && Delivered(l.cenv.reply) && l.cenv.reply.body.value.id == ""
    case BlockNilAnnotationMap => AllocationCharged(w, l, b) && w.clusters[l.key].obj.annotations.None?
    case BlockMetadataPatchLost => AllocationCharged(w, l, b) && !l.cenv.patch.meta
    case OverwrittenByLaterBlock =>
      l.ReconcileCluster? && SendsBlockCreate(w, l.key, l.cenv) && Delivered(l.cenv.reply)
      && C.GetIPAllocationID(w.clusters[l.key].obj) == b && C.GetIP(w.clusters[l.key].obj) == ""
    case DeleteNotConfirmed => BlockDisappears(w, l, b) && DeleteSent(Step(w, l).log, w.blocks[b].owner, b)
    case LeftBecauseNotUnassigned =>
      BlockDisappears(w, l, b) && Step(w, l).clusters[w.blocks[b].owner].obj.status.bmcStatus != NotAssigned
  }

  /** A move charges a block it just made, a block it writes over, or the recorded block of a cluster that goes away. */
  lemma LossesOfBlockMove(w: World, k: Key, v: Move, b: string)
    requires Lawful(w, k, v) && b in Moved(w, k, v).lostBlocks && b !in w.lostBlocks
    requires ClusterOK(w.blocks, w.log, k, w.clusters[k])
    ensures var w' := Moved(w, k, v);
            var c := w.clusters[k].obj;
            if v.call == Some(PostBlock) && v.made == Some(b) then
              BlockCreateLoss(c, v.reply, v.patch) == Some(w'.lostBlocks[b])
            else if w'.lostBlocks[b] == OverwrittenByLaterBlock then
              Records(c, v) && b == C.GetIPAllocationID(c) && C.GetIP(c) == ""
            else
              && w'.clusters[k].gone && b == C.GetIPAllocationID(v.stored) == C.GetIPAllocationID(c)
              && b in w.blocks && !w.blocks[b].released
              && (if DeleteSent(w'.log, k, b) then w'.lostBlocks[b] == DeleteNotConfirmed
                  else v.stored.status.bmcStatus != NotAssigned && w'.lostBlocks[b] == LeftBecauseNotUnassigned)
  {
  }

  lemma ReconcileBlockLossIsCharged(w: World, l: Label, b: string)
    requires BlocksInv(w) && Allowed(w, l) && b in Step(w, l).lostBlocks && b !in w.lostBlocks
    requires l.ReconcileCluster? && ClusterPresent(w, l.key)
    ensures BlockCharged(w, l, b, Step(w, l).lostBlocks[b])
  {
    var v := MoveOf(w, l.key, l.cenv, l.made);
    ReconcileIsLawful(w, l.key, l.cenv, l.made);
    assert Step(w, l) == Moved(w, l.key, v);
    assert ClusterOK(w.blocks, w.log, l.key, w.clusters[l.key]);
    LossesOfBlockMove(w, l.key, v, b);
  }

  /** Storing a cluster charges at most its recorded block, and only when the cluster goes away. */
  lemma LossOfStoring(w: World, k: Key, c: Cluster, b: string)
    requires ClusterPresent(w, k) && ClusterOK(w.blocks, w.log, k, w.clusters[k])
    requires c.annotations == w.clusters[k].obj.annotations
    requires b in StoreCluster(w, k, c).lostBlocks && b !in w.lostBlocks && "" !in w.blocks
    ensures var w' := StoreCluster(w, k, c);
            && w'.clusters[k].gone && b == C.GetIPAllocationID(w.clusters[k].obj) && b in w.blocks
            && w.blocks[b].owner == k && !w.blocks[b].released
            && (if DeleteSent(w.log, k, b) then w'.lostBlocks[b] == DeleteNotConfirmed
                else c.status.bmcStatus != NotAssigned && w'.lostBlocks[b] == LeftBecauseNotUnassigned)
  {
  }

  lemma EditBlockLossIsCharged(w: World, l: Label, b: string)
    requires BlocksInv(w) && b in Step(w, l).lostBlocks && b !in w.lostBlocks
    requires (l.MarkClusterDeleted? || l.EditClusterFinalizers?) && ClusterPresent(w, l.key)
    ensures BlockCharged(w, l, b, Step(w, l).lostBlocks[b])
  {
    var c := w.clusters[l.key].obj;
    assert ClusterOK(w.blocks, w.log, l.key, w.clusters[l.key]);
    assert "" in w.blocks ==> BlockOK(w, "");
    if l.MarkClusterDeleted? {
      LossOfStoring(w, l.key, c.(deleting := true), b);
    } else {
      LossOfStoring(w, l.key, c.(finalizers := Edited(c.finalizers, ClusterFinalizer, l.foreign)), b);
    }
  }

  /** Every block that becomes lost is charged to the fault its cause names. */
  lemma EveryBlockLossIsCharged(w: World, l: Label, b: string)
    requires BlocksInv(w) && Allowed(w, l) && b in Step(w, l).lostBlocks && b !in w.lostBlocks
    ensures BlockCharged(w, l, b, Step(w, l).lostBlocks[b])
  {
    if l.ReconcileCluster? && ClusterPresent(w, l.key) {
      ReconcileBlockLossIsCharged(w, l, b);
    } else if (l.MarkClusterDeleted? || l.EditClusterFinalizers?) && ClusterPresent(w, l.key) {
      EditBlockLossIsCharged(w, l, b);
    } else if l.ReconcileMachine? && MachinePresent(w, l.key) {
      MachineStepLeavesBlocks(w, l);
    }
  }
}
