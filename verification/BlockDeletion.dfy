/** What deleting a cluster does to its block: whom a DELETE is sent for, what it settles, and what it leaves behind. */
module BlockDeletion {
  import opened Wrappers
  import opened Api
  import opened TransitionSystem
  import opened BlockInvariant
  import opened BlockTheorems
  import C = ClusterModel
  import T = ServerTheorems
  import Ipv4

  // ---------- whom a DELETE is sent for ----------

  /**
   A DELETE is sent exactly for a deleted cluster recorded as unassigned, and names whatever is
   recorded; that is a block of the cluster exactly when anything is recorded.
   */
  lemma DeletionsStayWithTheOwner(w: World, labels: seq<Label>, k: Key, env: C.ClusterEnv)
    requires T.Reached(w, labels) && ClusterPresent(w, k)
    ensures var c := w.clusters[k].obj;
            var id := C.GetIPAllocationID(c);
            && (forall i :: C.ReconcileEffect(c, env).call == Some(DeleteBlock(i)) <==>
                              env.gate == C.Open && c.deleting && c.status.bmcStatus == NotAssigned && i == id)
            && (id in AllocatedFor(w, k) <==> id != "")
  {
    RecordedBlockIsOwned(w, labels, k);
    DeleteIsSentIff(w.clusters[k].obj, env);
  }

  lemma DeleteIsSentIff(c: Cluster, env: C.ClusterEnv)
    ensures forall i :: C.ReconcileEffect(c, env).call == Some(DeleteBlock(i)) <==>
                          env.gate == C.Open && c.deleting && c.status.bmcStatus == NotAssigned
                          && i == C.GetIPAllocationID(c)
  {
  }

  lemma RecordedBlockIsOwned(w: World, labels: seq<Label>, k: Key)
    requires T.Reached(w, labels) && k in w.clusters
    ensures C.GetIPAllocationID(w.clusters[k].obj) in AllocatedFor(w, k) <==> C.GetIPAllocationID(w.clusters[k].obj) != ""
  {
    ReachedKeepsBlocksInv(w, labels);
    assert ClusterOK(w.blocks, w.log, k, w.clusters[k]);
    assert "" in w.blocks ==> BlockOK(w, "");
  }

  // ---------- what a delete reconcile settles ----------

  predicate Unanswered(c: Cluster, env: C.ClusterEnv) {
    c.status.bmcStatus == NotAssigned && env.reply == TransportError
  }

  /** A persisted delete reconcile releases the finalizer, unless it panics on an unanswered DELETE. */
  lemma DeleteReleasesFinalizer(w: World, k: Key, env: C.ClusterEnv, made: Option<string>)
    requires ClusterPresent(w, k) && w.clusters[k].obj.deleting && env.gate == C.Open && env.patch.meta
    ensures var c := w.clusters[k].obj;
            var slot := Step(w, ReconcileCluster(k, env, made)).clusters[k];
            && slot.obj.finalizers == (if Unanswered(c, env) then c.finalizers else c.finalizers - {ClusterFinalizer})
            && (slot.gone <==> slot.obj.finalizers == {})
  {
  }

  lemma DeletionMoveReleases(w: World, k: Key, v: Move)
    requires Lawful(w, k, v) && C.GetIPAllocationID(w.clusters[k].obj) in w.blocks
    requires v.call.Some? ==> v.call.value.DeleteBlock?
    ensures var w' := Moved(w, k, v);
            var id := C.GetIPAllocationID(w.clusters[k].obj);
            && id in w'.blocks
            && (w'.blocks[id].released <==> w.blocks[id].released || (v.call.Some? && Accepted(v.reply)))
            && (DeleteSent(w'.log, k, id) <==> DeleteSent(w.log, k, id) || v.call.Some?)
  {
    var id := C.GetIPAllocationID(w.clusters[k].obj);
    CallKeepsOldAccounts(w, k, v, id);
    if v.call.Some? {
      var e := ClusterCall(k, v.call.value, v.reply);
      BlockEvidenceGrows(w.log, [e], k, id, "");
      assert e in Moved(w, k, v).log;
    }
  }

  lemma DeletionMoveSettles(w: World, k: Key, v: Move)
    requires Lawful(w, k, v) && ClusterOK(w.blocks, w.log, k, w.clusters[k])
    requires var id := C.GetIPAllocationID(w.clusters[k].obj); id != "" && BlockOK(w, id)
    requires v.call.Some? ==> v.call.value.DeleteBlock?
    ensures var w' := Moved(w, k, v);
            var id := C.GetIPAllocationID(w.clusters[k].obj);
            && id in w'.blocks
            && (id in w'.lostBlocks <==> w'.clusters[k].gone && !w'.blocks[id].released)
            && (id in w'.lostBlocks ==>
                  w'.lostBlocks[id] == if DeleteSent(w'.log, k, id) then DeleteNotConfirmed else LeftBecauseNotUnassigned)
  {
    var id := C.GetIPAllocationID(w.clusters[k].obj);
    CallKeepsOldAccounts(w, k, v, id);
    StoredClusterOK(w, k, v);
    OldBlocksKeepTheirAccount(w, k, v, id);
    if id in Moved(w, k, v).lostBlocks {
      LossesOfBlockMove(w, k, v, id);
    }
  }

  /**
   A delete reconcile settles the account of the recorded block: it ends released exactly if it was,
   or if it is recorded as unassigned and the DELETE is answered 2xx; and if the cluster goes away
   with it unreleased, it is lost, to the unconfirmed DELETE if one was ever sent.
   */
  lemma DeletionSettlesBlock(w: World, labels: seq<Label>, k: Key, env: C.ClusterEnv, made: Option<string>)
    requires T.Reached(w, labels) && ClusterPresent(w, k) && w.clusters[k].obj.deleting
    requires env.gate == C.Open && C.GetIPAllocationID(w.clusters[k].obj) != ""
    ensures var w' := Step(w, ReconcileCluster(k, env, made));
            var id := C.GetIPAllocationID(w.clusters[k].obj);
            var due := w.clusters[k].obj.status.bmcStatus == NotAssigned;
            && id in w.blocks && id in w'.blocks
            && (w'.blocks[id].released <==> w.blocks[id].released || (due && Accepted(env.reply)))
            && (DeleteSent(w'.log, k, id) <==> DeleteSent(w.log, k, id) || due)
            && (id in w'.lostBlocks <==> w'.clusters[k].gone && !w'.blocks[id].released)
            && (id in w'.lostBlocks ==>
                  w'.lostBlocks[id] == if DeleteSent(w'.log, k, id) then DeleteNotConfirmed else LeftBecauseNotUnassigned)
  {
    var v := MoveOf(w, k, env, made);
    var id := C.GetIPAllocationID(w.clusters[k].obj);
    ReachedKeepsBlocksInv(w, labels);
    DeletionCalls(w.clusters[k].obj, env);
    ReconcileIsLawful(w, k, env, made);
    assert ClusterOK(w.blocks, w.log, k, w.clusters[k]);
    assert BlockOK(w, id);
    DeletionMoveReleases(w, k, v);
    DeletionMoveSettles(w, k, v);
    assert Step(w, ReconcileCluster(k, env, made)) == Moved(w, k, v);
  }

  /** When a delete reconcile sends a DELETE; it never allocates. */
  lemma DeletionCalls(c: Cluster, env: C.ClusterEnv)
    requires c.deleting
    ensures C.ReconcileEffect(c, env).call ==
              if env.gate == C.Open && c.status.bmcStatus == NotAssigned then Some(DeleteBlock(C.GetIPAllocationID(c)))
              else None
  {
  }

  // ---------- what the recorded status decides ----------

  /** A deleted cluster that holds its block and is recorded in a status other than unassigned. */
  predicate LeftInUse(w: World, k: Key, id: string, s: BMCStatus) {
    && k in w.clusters && w.clusters[k].obj.deleting && s != NotAssigned
    && w.clusters[k].obj.status.bmcStatus == s && C.GetIPAllocationID(w.clusters[k].obj) == id != ""
  }

  lemma StepKeepsLeftInUse(w: World, l: Label, k: Key, id: string, s: BMCStatus)
    requires LeftInUse(w, k, id, s)
    ensures LeftInUse(Step(w, l), k, id, s)
  {
    if l.ReconcileCluster? && l.key == k {
      if ClusterPresent(w, k) {
        IdleReconcileKeepsAll(w.clusters[k].obj, l.cenv);
      }
    } else {
      OtherStepsLeaveCluster(w, l, k);
    }
  }

  lemma StepReleasesNothingInUse(w: World, l: Label, k: Key, id: string, s: BMCStatus)
    requires BlocksInv(w) && Allowed(w, l) && LeftInUse(w, k, id, s) && id in w.blocks
    ensures id in Step(w, l).blocks && Step(w, l).blocks[id] == w.blocks[id]
  {
    if l.ReconcileCluster? && ClusterPresent(w, l.key) {
      var c := w.clusters[l.key].obj;
      var call := C.ReconcileEffect(c, l.cenv).call;
      assert ClusterOK(w.blocks, w.log, l.key, w.clusters[l.key]) && ClusterOK(w.blocks, w.log, k, w.clusters[k]);
      if call.Some? {
        CallsNameTheRecordedBlock(c, l.cenv);
      }
      assert Step(w, l).blocks == CloudAfter(w.blocks, l.key, call, l.cenv.reply, l.made);
    } else if l.ReconcileMachine? && MachinePresent(w, l.key) {
      MachineStepLeavesBlocks(w, l);
    }
  }

  /**
   The status recorded when a cluster is marked deleted decides: unless it is unassigned, no later
   run ever releases the block, because a deleted cluster is not polled any more.
   */
  lemma {:induction false} StatusAtDeletionDecides(w: World, labels: seq<Label>, k: Key, id: string, s: BMCStatus)
    requires BlocksInv(w) && ValidRun(w, labels) && LeftInUse(w, k, id, s) && id in w.blocks
    ensures LeftInUse(Run(w, labels), k, id, s)
    ensures id in Run(w, labels).blocks && Run(w, labels).blocks[id] == w.blocks[id]
    decreases |labels|
  {
    if labels != [] {
      StepKeepsLeftInUse(w, labels[0], k, id, s);
      StepReleasesNothingInUse(w, labels[0], k, id, s);
      StepKeepsBlocksInv(w, labels[0]);
      StatusAtDeletionDecides(Step(w, labels[0]), labels[1..], k, id, s);
    }
  }

  // ---------- deletions without a block ----------

  /** A cluster recorded as unassigned has a block to delete. */
  predicate UnassignedHasBlock(c: Cluster) {
    c.status.bmcStatus == NotAssigned ==> C.GetIPAllocationID(c) != ""
  }

  /** A live reconcile with a delivered reply leaves an unassigned status stored beside an empty allocation id. */
  predicate Bares(c: Cluster, env: C.ClusterEnv) {
    && env.gate == C.Open && !c.deleting && Delivered(env.reply)
    && var s := env.reply.body.value;
       var recorded := C.GetIP(c) == "" && c.annotations.Some? && env.patch.meta;
       && (if recorded then s.id else C.GetIPAllocationID(c)) == ""
       && (if env.patch.status then s.bmcStatus else c.status.bmcStatus) == NotAssigned
  }

  predicate BaresNothing(w: World, l: Label) {
    l.ReconcileCluster? && ClusterPresent(w, l.key) ==> !Bares(w.clusters[l.key].obj, l.cenv)
  }

  /** What a live reconcile leaves as the recorded status. */
  lemma DeliveredStatusIsTaken(c: Cluster, env: C.ClusterEnv)
    requires env.gate == C.Open && !c.deleting
    ensures var c' := C.ReconcileEffect(c, env).obj;
            if Delivered(env.reply) then c'.status.bmcStatus == env.reply.body.value.bmcStatus
            else c'.status.bmcStatus == NotAssigned ==> c.status.bmcStatus == NotAssigned
  {
  }

  lemma LiveCallIff(c: Cluster, env: C.ClusterEnv)
    requires env.gate == C.Open && !c.deleting
    ensures C.ReconcileEffect(c, env).call == Some(PostBlock) <==> C.GetIP(c) == ""
  {
  }

  lemma IdleReconcileKeepsAll(c: Cluster, env: C.ClusterEnv)
    requires env.gate != C.Open || c.deleting
    ensures var c' := C.ReconcileEffect(c, env).obj;
            c'.annotations == c.annotations && c'.status == c.status
  {
  }

  lemma PersistedBaresIff(c: Cluster, c': Cluster, env: C.ClusterEnv)
    requires UnassignedHasBlock(c) && env.gate == C.Open && !c.deleting
    requires var recorded := C.GetIP(c) == "" && Delivered(env.reply) && c.annotations.Some?;
             C.GetIPAllocationID(c') == if recorded then env.reply.body.value.id else C.GetIPAllocationID(c)
    requires if Delivered(env.reply) then c'.status.bmcStatus == env.reply.body.value.bmcStatus
             else c'.status.bmcStatus == NotAssigned ==> c.status.bmcStatus == NotAssigned
    ensures UnassignedHasBlock(C.Persisted(c, c', env.patch)) <==> !Bares(c, env)
  {
  }

  /** A reconcile comes to leave a cluster unassigned with no block recorded exactly when its reply bares it. */
  lemma ReconcileBaresIff(c: Cluster, env: C.ClusterEnv)
    requires UnassignedHasBlock(c)
    ensures UnassignedHasBlock(C.Persisted(c, C.ReconcileEffect(c, env).obj, env.patch)) <==> !Bares(c, env)
  {
    if env.gate == C.Open && !c.deleting {
      AllocationComesFromReply(c, env);
      LiveCallIff(c, env);
      DeliveredStatusIsTaken(c, env);
      PersistedBaresIff(c, C.ReconcileEffect(c, env).obj, env);
    } else {
      IdleReconcileKeepsAll(c, env);
    }
  }

  lemma StepBaresIff(w: World, l: Label, k: Key)
    requires ClusterHas(w, k, UnassignedHasBlock) && Allowed(w, l)
    ensures ClusterHas(Step(w, l), k, UnassignedHasBlock) <==> (l.key == k ==> BaresNothing(w, l))
  {
    OnlyReconcilesBreakFacts(w, l, k, UnassignedHasBlock);
    if l.ReconcileCluster? && l.key == k && ClusterPresent(w, k) {
      ReconcileBaresIff(w.clusters[k].obj, l.cenv);
    }
  }

  /**
   A cluster has a block recorded whenever it is recorded as unassigned, in every state of a run,
   exactly when no step of its own bares it.
   */
  lemma UnassignedHasBlockIffNeverBared(labels: seq<Label>, k: Key)
    requires ValidRun(EMPTY_WORLD, labels)
    ensures Always(EMPTY_WORLD, labels, w => ClusterHas(w, k, UnassignedHasBlock)) <==>
              Throughout(EMPTY_WORLD, labels, k, BaresNothing)
  {
    BlocksInvIsKept();
    forall v, l | ClusterHas(v, k, UnassignedHasBlock) && Allowed(v, l)
      ensures ClusterHas(Step(v, l), k, UnassignedHasBlock) <==> (l.key == k ==> BaresNothing(v, l))
    {
      StepBaresIff(v, l, k);
    }
    AlwaysIffThroughout(EMPTY_WORLD, labels, k, BlocksInv, w => ClusterHas(w, k, UnassignedHasBlock), BaresNothing);
  }

  predicate DeletesNamed(log: seq<Entry>, k: Key) {
    forall e :: e in log && e.ClusterCall? && e.cluster == k && e.call.DeleteBlock? ==> e.call.id != ""
  }

  lemma StepKeepsDeletesNamed(w: World, l: Label, k: Key)
    requires ClusterHas(w, k, UnassignedHasBlock) && DeletesNamed(w.log, k)
    ensures DeletesNamed(Step(w, l).log, k)
  {
    if l.ReconcileCluster? && ClusterPresent(w, l.key) {
      var c := w.clusters[l.key].obj;
      var call := C.ReconcileEffect(c, l.cenv).call;
      if call.Some? {
        CallsNameTheRecordedBlock(c, l.cenv);
      }
      assert Step(w, l).log == if call.Some? then w.log + [ClusterCall(l.key, call.value, l.cenv.reply)] else w.log;
    } else if l.ReconcileMachine? && MachinePresent(w, l.key) {
      MachineStepLeavesBlocks(w, l);
    }
  }

  lemma {:induction false} RunKeepsDeletesNamed(w: World, labels: seq<Label>, k: Key)
    requires ClusterHas(w, k, UnassignedHasBlock) && DeletesNamed(w.log, k)
    requires ValidRun(w, labels) && Throughout(w, labels, k, BaresNothing)
    ensures DeletesNamed(Run(w, labels).log, k)
    decreases |labels|
  {
    if labels != [] {
      StepBaresIff(w, labels[0], k);
      StepKeepsDeletesNamed(w, labels[0], k);
      RunKeepsDeletesNamed(Step(w, labels[0]), labels[1..], k);
    }
  }

  /** Where no step of its own bares a cluster, every DELETE ever sent for it names a block allocated for it. */
  lemma DeletionsNameABlock(w: World, labels: seq<Label>, e: Entry)
    requires T.Reached(w, labels) && e in w.log && e.ClusterCall? && e.call.DeleteBlock?
    requires Throughout(EMPTY_WORLD, labels, e.cluster, BaresNothing)
    ensures e.call.id in AllocatedFor(w, e.cluster)
  {
    RunKeepsDeletesNamed(EMPTY_WORLD, labels, e.cluster);
    ReachedKeepsBlocksInv(w, labels);
    assert BlockEntryOK(w.blocks, e);
  }

  /** A cluster that somebody else guards, too. */
  const KUBEVIP_CLUSTER :=
    Cluster({ForeignFinalizer("guard")}, Some(map[]), false, KUBEVIP, Endpoint("", 0), EMPTY_CLUSTER_STATUS)

  /** A well-formed block, reported unassigned, under the id the reply gives it. */
  function BlockReplyFor(x: Ipv4.Address, id: string): Reply<ClusterStatus> {
    Response(201, Some(ClusterStatus(id, Ipv4.Text(x) + Ipv4.BLOCK_SUFFIX, NotAssigned, false, None)))
  }

  function AllocationEnv(x: Ipv4.Address, id: string, patch: Patch): C.ClusterEnv {
    C.ClusterEnv(C.Open, BlockReplyFor(x, id), patch)
  }

  /** The cloud makes a block, which the reply may leave without a name. */
  function Allocation(x: Ipv4.Address, id: string, patch: Patch): Label {
    ReconcileCluster("c", AllocationEnv(x, id, patch), Some(if id == "" then "block" else id))
  }

  const REGISTER_CLUSTER := RegisterCluster("c", KUBEVIP_CLUSTER)

  /** What a delivered allocation of a live cluster does before anything is stored. */
  lemma LiveAllocation(c: Cluster, env: C.ClusterEnv)
    requires env.gate == C.Open && !c.deleting && C.GetIP(c) == "" && Delivered(env.reply)
    ensures var eff := C.ReconcileEffect(c, env);
            && eff.call == Some(PostBlock)
            && eff.obj == C.Adopted(c.(finalizers := c.finalizers + {ClusterFinalizer}), env.reply.body.value).0
  {
  }

  lemma AdoptionReadies(c: Cluster, s: ClusterStatus)
    requires c.annotations.Some? && Ipv4.ControlPlaneText(s.cidr).Some?
    ensures var c' := C.Adopted(c, s).0;
            && c'.status.ready && c'.status.bmcStatus == s.bmcStatus
            && c'.finalizers == c.finalizers && c'.deleting == c.deleting && c'.vip == c.vip
  {
  }

  /** What an allocation leaves stored of a new cluster, whichever part of its patch arrives. */
  lemma AllocationResult(x: Ipv4.Address, id: string, patch: Patch)
    ensures var eff := C.ReconcileEffect(KUBEVIP_CLUSTER, AllocationEnv(x, id, patch));
            && eff.call == Some(PostBlock)
            && var c := C.Persisted(KUBEVIP_CLUSTER, eff.obj, patch);
               && !c.deleting && c.vip == KUBEVIP && ForeignFinalizer("guard") in c.finalizers
               && c.status.ready == patch.status
               && (patch.status ==> c.status.bmcStatus == NotAssigned)
               && C.GetIPAllocationID(c) == (if patch.meta then id else "")
               && C.GetIP(c) == (if patch.meta then Ipv4.Text(Ipv4.Next(x)) else "")
  {
    var c1 := KUBEVIP_CLUSTER.(finalizers := KUBEVIP_CLUSTER.finalizers + {ClusterFinalizer});
    var s := ClusterStatus(id, Ipv4.Text(x) + Ipv4.BLOCK_SUFFIX, NotAssigned, false, None);
    assert BlockReplyFor(x, id).body == Some(s);
    Ipv4.PublishedReadsBack(x);
    LiveAllocation(KUBEVIP_CLUSTER, AllocationEnv(x, id, patch));
    AdoptionReadies(c1, s);
    AdoptionRecords(c1, s);
    AllocationPersists(C.Adopted(c1, s).0, patch);
  }

  lemma AllocationPersists(c: Cluster, patch: Patch)
    requires !c.deleting && c.vip == KUBEVIP && ForeignFinalizer("guard") in c.finalizers && c.status.ready
    ensures var p := C.Persisted(KUBEVIP_CLUSTER, c, patch);
            && !p.deleting && p.vip == KUBEVIP && ForeignFinalizer("guard") in p.finalizers
            && p.status.ready == patch.status && (patch.status ==> p.status == c.status)
            && C.GetIPAllocationID(p) == (if patch.meta then C.GetIPAllocationID(c) else "")
            && C.GetIP(p) == (if patch.meta then C.GetIP(c) else "")
  {
  }

  lemma AllocationIsAllowed(x: Ipv4.Address, id: string, patch: Patch)
    ensures Allowed(EMPTY_WORLD, REGISTER_CLUSTER)
    ensures var w := Step(EMPTY_WORLD, REGISTER_CLUSTER);
            Allowed(w, Allocation(x, id, patch)) && SendsBlockCreate(w, "c", AllocationEnv(x, id, patch))
  {
    AllocationResult(x, id, patch);
  }

  const MARK_DELETED := MarkClusterDeleted("c")

  function Deletion(reply: Reply<ClusterStatus>, patch: Patch): Label {
    ReconcileCluster("c", C.ClusterEnv(C.Open, reply, patch), None)
  }

  lemma BareClusterIsDeletedByNoName(w: World, reply: Reply<ClusterStatus>, patch: Patch)
    requires ClusterPresent(w, "c")
    requires var c := w.clusters["c"].obj;
             && c.status.bmcStatus == NotAssigned && C.GetIPAllocationID(c) == "" && c.finalizers != {}
    ensures Allowed(w, MARK_DELETED) && Allowed(Step(w, MARK_DELETED), Deletion(reply, patch))
    ensures DeleteSent(Step(Step(w, MARK_DELETED), Deletion(reply, patch)).log, "c", "")
  {
    var w1 := Step(w, MARK_DELETED);
    var e := ClusterCall("c", DeleteBlock(""), reply);
    assert Step(w1, Deletion(reply, patch)).log == w1.log + [e];
    assert e in w1.log + [e];
  }

  /**
   An allocation that is reported unassigned and not recorded, because its reply carries no id or
   because only the status patch arrives, ends in a DELETE that names no block at all.
   */
  lemma BareDeletionIsReachable(x: Ipv4.Address, id: string, patch: Patch, reply: Reply<ClusterStatus>, last: Patch)
    requires patch.status && (id == "" || !patch.meta)
    ensures var run := ([REGISTER_CLUSTER] + [Allocation(x, id, patch)]) + ([MARK_DELETED] + [Deletion(reply, last)]);
            ValidRun(EMPTY_WORLD, run) && DeleteSent(Run(EMPTY_WORLD, run).log, "c", "")
  {
    AllocationResult(x, id, patch);
    AllocationIsAllowed(x, id, patch);
    BareClusterIsDeletedByNoName(Step(Step(EMPTY_WORLD, REGISTER_CLUSTER), Allocation(x, id, patch)), reply, last);
    FourSteps(EMPTY_WORLD, REGISTER_CLUSTER, Allocation(x, id, patch), MARK_DELETED, Deletion(reply, last));
  }

  // ---------- an unassigned block recorded as stale ----------

  /** A cluster holds the block "block", for which no DELETE has been sent. */
  predicate HoldsBlock(w: World, s: BMCStatus, deleting: bool) {
    && ClusterPresent(w, "c") && w.blocks == map["block" := Asset("c", false)]
    && (forall e :: e in w.log ==> !e.call.DeleteBlock?)
    && var c := w.clusters["c"].obj;
       && c.deleting == deleting && ClusterFinalizer in c.finalizers && c.status.bmcStatus == s
       && C.GetIPAllocationID(c) == "block" && C.GetIP(c) != ""
  }

  const WHOLE_PATCH := Patch(true, true)

  lemma AllocationHolds(x: Ipv4.Address)
    ensures var l := Allocation(x, "block", WHOLE_PATCH);
            HoldsBlock(Step(Step(EMPTY_WORLD, REGISTER_CLUSTER), l), NotAssigned, false)
  {
    AllocationResult(x, "block", WHOLE_PATCH);
    AllocatedTextIsNotEmpty(x);
    ClusterFinalizerMoves(KUBEVIP_CLUSTER, AllocationEnv(x, "block", WHOLE_PATCH));
  }

  lemma AllocatedTextIsNotEmpty(x: Ipv4.Address)
    ensures Ipv4.Text(Ipv4.Next(x)) != ""
  {
    Ipv4.PublishedReadsBack(x);
    Ipv4.DerivedTextNotEmpty(Ipv4.Text(x) + Ipv4.BLOCK_SUFFIX);
  }

  function Poll(reply: Reply<ClusterStatus>): Label {
    ReconcileCluster("c", C.ClusterEnv(C.Open, reply, WHOLE_PATCH), None)
  }

  lemma OutageLeavesStale(w: World, reply: Reply<ClusterStatus>)
    requires HoldsBlock(w, NotAssigned, false) && Outage(reply)
    ensures Allowed(w, Poll(reply)) && HoldsBlock(Step(w, Poll(reply)), Stale, false)
  {
    var c := w.clusters["c"].obj;
    PublishedEndpointIsKept(c, Poll(reply).cenv);
    ClusterFinalizerMoves(c, Poll(reply).cenv);
    var call := C.ReconcileEffect(c, Poll(reply).cenv).call;
    assert Step(w, Poll(reply)).log == w.log + [ClusterCall("c", call.value, reply)];
  }

  const DROP_GUARDS := EditClusterFinalizers("c", {})

  lemma StaleClusterIsMarked(w: World)
    requires HoldsBlock(w, Stale, false)
    ensures Allowed(w, DROP_GUARDS) && Allowed(Step(w, DROP_GUARDS), MARK_DELETED)
    ensures var w' := Step(Step(w, DROP_GUARDS), MARK_DELETED);
            HoldsBlock(w', Stale, true) && w'.clusters["c"].obj.finalizers == {ClusterFinalizer}
  {
  }

  function StaleRun(x: Ipv4.Address, outage: Reply<ClusterStatus>): seq<Label> {
    (([REGISTER_CLUSTER] + [Allocation(x, "block", WHOLE_PATCH)]) + ([Poll(outage)] + [DROP_GUARDS])) + [MARK_DELETED]
  }

  lemma StaleRunWorks(x: Ipv4.Address, outage: Reply<ClusterStatus>)
    requires Outage(outage)
    ensures var w := Run(EMPTY_WORLD, StaleRun(x, outage));
            && ValidRun(EMPTY_WORLD, StaleRun(x, outage)) && HoldsBlock(w, Stale, true)
            && w.clusters["c"].obj.finalizers == {ClusterFinalizer}
  {
    var allocation := Allocation(x, "block", WHOLE_PATCH);
    var w2 := Step(Step(EMPTY_WORLD, REGISTER_CLUSTER), allocation);
    var prefix := ([REGISTER_CLUSTER] + [allocation]) + ([Poll(outage)] + [DROP_GUARDS]);
    AllocationIsAllowed(x, "block", WHOLE_PATCH);
    AllocationHolds(x);
    OutageLeavesStale(w2, outage);
    StaleClusterIsMarked(Step(w2, Poll(outage)));
    FourSteps(EMPTY_WORLD, REGISTER_CLUSTER, allocation, Poll(outage), DROP_GUARDS);
    RunSplits(EMPTY_WORLD, prefix, [MARK_DELETED]);
    RunOne(Run(EMPTY_WORLD, prefix), MARK_DELETED);
  }

  /**
   One outage before the deletion is enough to leak an unassigned block: it is recorded as stale,
   no DELETE is sent, and the block is lost when the cluster goes away, whatever is answered then.
   */
  lemma StaleBlockIsLeaked(x: Ipv4.Address, outage: Reply<ClusterStatus>, reply: Reply<ClusterStatus>)
    requires Outage(outage)
    ensures var run := StaleRun(x, outage) + [Deletion(reply, WHOLE_PATCH)];
            var w := Run(EMPTY_WORLD, run);
            && ValidRun(EMPTY_WORLD, run) && "c" in w.clusters && w.clusters["c"].gone
            && !DeleteSent(w.log, "c", "block")
            && "block" in w.blocks && !w.blocks["block"].released
            && "block" in w.lostBlocks && w.lostBlocks["block"] == LeftBecauseNotUnassigned
  {
    var before := StaleRun(x, outage);
    var w := Run(EMPTY_WORLD, before);
    StaleRunWorks(x, outage);
    var last := Deletion(reply, WHOLE_PATCH);
    DeletionCalls(w.clusters["c"].obj, last.cenv);
    DeleteReleasesFinalizer(w, "c", last.cenv, None);
    DeletionSettlesBlock(w, before, "c", last.cenv, None);
    RunSplits(EMPTY_WORLD, before, [last]);
    RunOne(w, last);
  }
}
