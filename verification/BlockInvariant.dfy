/**
 The invariant of every run about clusters and IP blocks: the published endpoint, finalizer
 evidence, and the account of every block the cloud ever created.
 */
module BlockInvariant {
  import opened Wrappers
  import opened Api
  import opened TransitionSystem
  import C = ClusterModel
  import Ipv4

  // ---------- one reconcile ----------

  /** Once an address is recorded, nothing about the endpoint changes any more. */
  lemma PublishedEndpointIsKept(c: Cluster, env: C.ClusterEnv)
    requires C.GetIP(c) != ""
    ensures var c' := C.ReconcileEffect(c, env).obj;
            c'.annotations == c.annotations && c'.endpoint == c.endpoint
  {
  }

  /** No reconcile takes readiness back, or changes the VIP manager or the deletion mark. */
  lemma ReadinessIsKept(c: Cluster, env: C.ClusterEnv)
    ensures var c' := C.ReconcileEffect(c, env).obj;
            (c.status.ready ==> c'.status.ready) && c'.vip == c.vip && c'.deleting == c.deleting
  {
  }

  /** Polls and deletions name the recorded block; a deletion only while the recorded status is unassigned. */
  lemma CallsNameTheRecordedBlock(c: Cluster, env: C.ClusterEnv)
    requires C.ReconcileEffect(c, env).call.Some?
    ensures match C.ReconcileEffect(c, env).call.value
            case PostBlock => C.GetIP(c) == "" && !c.deleting
            case GetBlock(id) => id == C.GetIPAllocationID(c) && C.GetIP(c) != "" && !c.deleting
            case DeleteBlock(id) => id == C.GetIPAllocationID(c) && c.deleting && c.status.bmcStatus == NotAssigned
            case _ => false
  {
  }

  /** What adopting a block writes down, as far as it gets. */
  lemma AdoptionRecords(c: Cluster, s: ClusterStatus)
    requires c.annotations.Some?
    ensures var c' := C.Adopted(c, s).0;
            var ip := Ipv4.ControlPlaneText(s.cidr);
            && C.GetIPAllocationID(c') == s.id
            && C.GetIP(c') == (if ip.Some? then ip.value else C.GetIP(c))
            && c'.endpoint == (if ip.Some? then Endpoint(ip.value, 6443) else c.endpoint)
  {
  }

  /** A poll never touches anything but the status. */
  lemma SyncTouchesStatusOnly(c: Cluster, reply: Reply<ClusterStatus>)
    ensures var c' := C.SyncEffect(c, reply).obj;
            c' == c.(status := c'.status)
  {
  }

  lemma CreateRecords(c: Cluster, reply: Reply<ClusterStatus>)
    ensures var c' := C.CreateEffect(c, reply).obj;
            if Delivered(reply) && c.annotations.Some? then c' == C.Adopted(c, reply.body.value).0
            else c'.annotations == c.annotations && c'.endpoint == c.endpoint
  {
  }

  /** The allocation id and the address a delivered block leaves recorded. */
  lemma AllocationComesFromReply(c: Cluster, env: C.ClusterEnv)
    ensures var eff := C.ReconcileEffect(c, env);
            var recorded := eff.call == Some(PostBlock) && Delivered(env.reply) && c.annotations.Some?;
            && C.GetIPAllocationID(eff.obj) == (if recorded then env.reply.body.value.id else C.GetIPAllocationID(c))
            && C.GetIP(eff.obj) ==
                 (if recorded && Ipv4.ControlPlaneText(env.reply.body.value.cidr).Some?
                  then Ipv4.ControlPlaneText(env.reply.body.value.cidr).value else C.GetIP(c))
            && (C.GetIP(eff.obj) != C.GetIP(c) ==> eff.obj.endpoint == Endpoint(C.GetIP(eff.obj), 6443))
  {
    var c1 := c.(finalizers := c.finalizers + {ClusterFinalizer});
    CreateRecords(c1, env.reply);
    SyncTouchesStatusOnly(c1, env.reply);
    if Delivered(env.reply) && c.annotations.Some? {
      AdoptionRecords(c1, env.reply.body.value);
    }
  }

  /** Live reconciles only add the finalizer; a delete drops it after an answered DELETE or when none is due. */
  lemma ClusterFinalizerMoves(c: Cluster, env: C.ClusterEnv)
    ensures var eff := C.ReconcileEffect(c, env);
            if c.deleting then
              && eff.obj.finalizers <= c.finalizers
              && eff.obj.status == c.status
              && (eff.obj.finalizers != c.finalizers ==>
                    c.status.bmcStatus != NotAssigned || eff.call == Some(DeleteBlock(C.GetIPAllocationID(c))))
            else
              && c.finalizers <= eff.obj.finalizers
              && (eff.call == Some(PostBlock) ==> ClusterFinalizer in eff.obj.finalizers)
  {
  }

  // ---------- the invariant ----------

  predicate ClusterOK(blocks: map<string, Asset>, log: seq<Entry>, k: Key, slot: ClusterSlot) {
    var c := slot.obj;
    var id := C.GetIPAllocationID(c);
    && (slot.gone <==> Vanishes(c.deleting, c.finalizers))
    && (id != "" ==>
          && id in blocks && blocks[id].owner == k
          && (ClusterFinalizer !in c.finalizers ==>
                c.deleting && (DeleteSent(log, k, id) || c.status.bmcStatus != NotAssigned)))
    && (C.GetIP(c) != "" ==>
          c.endpoint == Endpoint(C.GetIP(c), 6443) && Allocated(log, k, id, C.GetIP(c)))
  }

  predicate HeldBlock(w: World, b: string)
    requires b in w.blocks && w.blocks[b].owner in w.clusters
  {
    var slot := w.clusters[w.blocks[b].owner];
    !slot.gone && C.GetIPAllocationID(slot.obj) == b
  }

  /** The block was lost while blocks were being allocated, not when its cluster went away. */
  predicate AllocationFault(loss: BlockLoss) {
    loss != DeleteNotConfirmed && loss != LeftBecauseNotUnassigned
  }

  /** A block is lost exactly when it is neither released nor recorded by its stored owner. */
  predicate BlockOK(w: World, b: string)
    requires b in w.blocks
  {
    var a := w.blocks[b];
    && b != ""
    && a.owner in w.clusters
    && (a.released ==> w.clusters[a.owner].obj.deleting && C.GetIPAllocationID(w.clusters[a.owner].obj) == b)
    && (b in w.lostBlocks <==> !a.released && !HeldBlock(w, b))
    && (b in w.lostBlocks ==> (AllocationFault(w.lostBlocks[b]) <==> C.GetIPAllocationID(w.clusters[a.owner].obj) != b))
  }

  predicate BlockEntryOK(blocks: map<string, Asset>, e: Entry) {
    e.ClusterCall? && (e.call.GetBlock? || e.call.DeleteBlock?) && e.call.id != "" ==>
      e.call.id in blocks && blocks[e.call.id].owner == e.cluster
  }

  predicate BlocksInv(w: World) {
    && (forall k :: k in w.clusters ==> ClusterOK(w.blocks, w.log, k, w.clusters[k]))
    && (forall b :: b in w.blocks ==> BlockOK(w, b))
    && (forall b :: b in w.lostBlocks ==> b in w.blocks)
    && (forall e :: e in w.log ==> BlockEntryOK(w.blocks, e))
  }

  predicate BlocksGrow(a: map<string, Asset>, b: map<string, Asset>) {
    forall x :: x in a ==> x in b && b[x].owner == a[x].owner
  }

  lemma BlockEvidenceGrows(log: seq<Entry>, more: seq<Entry>, k: Key, id: string, ip: string)
    ensures DeleteSent(log, k, id) ==> DeleteSent(log + more, k, id)
    ensures Allocated(log, k, id, ip) ==> Allocated(log + more, k, id, ip)
  {
    assert forall e :: e in log ==> e in log + more;
  }

  lemma ClusterFramed(blocks: map<string, Asset>, blocks': map<string, Asset>, log: seq<Entry>, more: seq<Entry>,
                      k: Key, slot: ClusterSlot)
    requires ClusterOK(blocks, log, k, slot) && BlocksGrow(blocks, blocks')
    ensures ClusterOK(blocks', log + more, k, slot)
  {
    BlockEvidenceGrows(log, more, k, C.GetIPAllocationID(slot.obj), C.GetIP(slot.obj));
  }

  // ---------- one reconcile of a cluster in the world ----------

  /** The outside of a reconcile: what it sent, what came of it, and what is stored afterwards. */
  datatype Move = Move(
    call: Option<Call>,
    reply: Reply<ClusterStatus>,
    patch: Patch,
    made: Option<string>,
    stored: Cluster)

  function MoveOf(w: World, k: Key, env: C.ClusterEnv, made: Option<string>): Move
    requires k in w.clusters
  {
    var eff := C.ReconcileEffect(w.clusters[k].obj, env);
    Move(eff.call, env.reply, env.patch, made, C.Persisted(w.clusters[k].obj, eff.obj, env.patch))
  }

  function Called(w: World, k: Key, v: Move): World
    requires k in w.clusters
  {
    AfterBlockCall(w, k, v.call, v.reply, v.patch, v.made)
  }

  function Moved(w: World, k: Key, v: Move): World
    requires k in w.clusters
  {
    StoreCluster(Called(w, k, v), k, v.stored)
  }

  predicate LawfulCall(blocks: map<string, Asset>, c: Cluster, v: Move) {
    v.call.Some? ==>
      match v.call.value
      case PostBlock => C.GetIP(c) == "" && !c.deleting && HonestMade(blocks, v.made) && HonestBlock(v.reply, v.made)
      case GetBlock(i) => i == C.GetIPAllocationID(c)
      case DeleteBlock(i) => i == C.GetIPAllocationID(c) && c.deleting
      case _ => false
  }

  /** The block of this move is written down. */
  predicate Records(c: Cluster, v: Move) {
    v.call == Some(PostBlock) && Delivered(v.reply) && c.annotations.Some? && v.patch.meta
  }

  predicate LawfulStore(c: Cluster, v: Move) {
    var id := C.GetIPAllocationID(c);
    var ip, ip' := C.GetIP(c), C.GetIP(v.stored);
    && v.stored.deleting == c.deleting
    && C.GetIPAllocationID(v.stored) == (if Records(c, v) then v.reply.body.value.id else id)
    && (ip' != "" ==>
          || (ip' == ip && v.stored.endpoint == c.endpoint && !Records(c, v))
          || (Records(c, v) && Ipv4.ControlPlaneText(v.reply.body.value.cidr) == Some(ip') && v.stored.endpoint == Endpoint(ip', 6443)))
    && (C.GetIPAllocationID(v.stored) != "" && ClusterFinalizer !in v.stored.finalizers ==>
          && c.deleting
          && v.stored.status == c.status
          && (ClusterFinalizer !in c.finalizers || v.call == Some(DeleteBlock(id)) || c.status.bmcStatus != NotAssigned))
  }

  predicate Lawful(w: World, k: Key, v: Move) {
    ClusterPresent(w, k) && LawfulCall(w.blocks, w.clusters[k].obj, v) && LawfulStore(w.clusters[k].obj, v)
  }

  lemma ReconcileCallIsLawful(blocks: map<string, Asset>, c: Cluster, v: Move, env: C.ClusterEnv)
    requires v.call == C.ReconcileEffect(c, env).call
    requires v.call == Some(PostBlock) ==> HonestMade(blocks, v.made) && HonestBlock(v.reply, v.made)
    ensures LawfulCall(blocks, c, v)
  {
    if v.call.Some? {
      CallsNameTheRecordedBlock(c, env);
    }
  }

  lemma ReconcileStoreIsLawful(c: Cluster, v: Move, env: C.ClusterEnv)
    requires var eff := C.ReconcileEffect(c, env);
             v.call == eff.call && v.reply == env.reply && v.patch == env.patch && v.stored == C.Persisted(c, eff.obj, env.patch)
    requires C.GetIPAllocationID(c) != "" && ClusterFinalizer !in c.finalizers ==> c.deleting
    ensures LawfulStore(c, v)
  {
    ClusterFinalizerMoves(c, env);
    AllocationComesFromReply(c, env);
    if v.call.Some? {
      CallsNameTheRecordedBlock(c, env);
    }
    if C.GetIP(c) != "" {
      PublishedEndpointIsKept(c, env);
    }
    if Delivered(env.reply) && Ipv4.ControlPlaneText(env.reply.body.value.cidr).Some? {
      Ipv4.DerivedTextNotEmpty(env.reply.body.value.cidr);
    }
  }

  lemma ReconcileIsLawful(w: World, k: Key, env: C.ClusterEnv, made: Option<string>)
    requires BlocksInv(w) && ClusterPresent(w, k) && Allowed(w, ReconcileCluster(k, env, made))
    ensures Lawful(w, k, MoveOf(w, k, env, made))
  {
    assert ClusterOK(w.blocks, w.log, k, w.clusters[k]);
    ReconcileCallIsLawful(w.blocks, w.clusters[k].obj, MoveOf(w, k, env, made), env);
    ReconcileStoreIsLawful(w.clusters[k].obj, MoveOf(w, k, env, made), env);
  }

  lemma StoredClusterOK(w: World, k: Key, v: Move)
    requires Lawful(w, k, v) && ClusterOK(w.blocks, w.log, k, w.clusters[k])
    ensures var w' := Moved(w, k, v);
            ClusterOK(w'.blocks, w'.log, k, w'.clusters[k])
  {
    var w' := Moved(w, k, v);
    if v.call.Some? {
      var e := ClusterCall(k, v.call.value, v.reply);
      BlockEvidenceGrows(w.log, [e], k, C.GetIPAllocationID(v.stored), C.GetIP(v.stored));
      assert e in w'.log;
    }
  }

  lemma OtherClusterOK(w: World, k: Key, v: Move, k': Key)
    requires Lawful(w, k, v) && ClusterOK(w.blocks, w.log, k, w.clusters[k])
    requires k' in w.clusters && k' != k && ClusterOK(w.blocks, w.log, k', w.clusters[k'])
    ensures var w' := Moved(w, k, v);
            ClusterOK(w'.blocks, w'.log, k', w'.clusters[k'])
  {
    var w' := Moved(w, k, v);
    if v.call.Some? {
      ClusterFramed(w.blocks, w'.blocks, w.log, [ClusterCall(k, v.call.value, v.reply)], k', w.clusters[k']);
    }
  }

  lemma LawfulKeepsCluster(w: World, k: Key, v: Move, k': Key)
    requires BlocksInv(w) && Lawful(w, k, v) && k' in w.clusters
    ensures var w' := Moved(w, k, v);
            ClusterOK(w'.blocks, w'.log, k', w'.clusters[k'])
  {
    assert ClusterOK(w.blocks, w.log, k', w.clusters[k']) && ClusterOK(w.blocks, w.log, k, w.clusters[k]);
    if k' == k {
      StoredClusterOK(w, k, v);
    } else {
      OtherClusterOK(w, k, v, k');
    }
  }

  /** What the calls of a move do to a block that existed before. */
  lemma CallKeepsOldAccounts(w: World, k: Key, v: Move, b: string)
    requires Lawful(w, k, v) && b in w.blocks
    ensures var w1 := Called(w, k, v);
            var c := w.clusters[k].obj;
            && b in w1.blocks
            && w1.blocks[b] ==
                 (if v.call == Some(DeleteBlock(b)) && Accepted(v.reply) then w.blocks[b].(released := true) else w.blocks[b])
            && (b in w1.lostBlocks <==> b in w.lostBlocks || (Records(c, v) && b == C.GetIPAllocationID(c) != ""))
            && (b in w.lostBlocks && !(Records(c, v) && b == C.GetIPAllocationID(c)) ==> w1.lostBlocks[b] == w.lostBlocks[b])
            && (Records(c, v) && b == C.GetIPAllocationID(c) != "" ==> w1.lostBlocks[b] == OverwrittenByLaterBlock)
  {
  }

  lemma OldBlocksKeepTheirAccount(w: World, k: Key, v: Move, b: string)
    requires Lawful(w, k, v) && b in w.blocks && BlockOK(w, b)
    requires ClusterOK(w.blocks, w.log, k, w.clusters[k])
    requires ClusterOK(Called(w, k, v).blocks, Called(w, k, v).log, k, Moved(w, k, v).clusters[k])
    ensures BlockOK(Moved(w, k, v), b)
  {
    CallKeepsOldAccounts(w, k, v, b);
    var id, id' := C.GetIPAllocationID(w.clusters[k].obj), C.GetIPAllocationID(v.stored);
    if w.blocks[b].owner == k {
      assert Records(w.clusters[k].obj, v) ==> id' != b;
    } else {
      assert b != id && b != id';
    }
  }

  /** What the call that makes a block enters in the books before anything is stored. */
  lemma NewBlockIsBooked(w: World, k: Key, v: Move)
    requires Lawful(w, k, v) && v.call == Some(PostBlock) && v.made.Some?
    requires v.made.value !in w.lostBlocks && v.made.value != C.GetIPAllocationID(w.clusters[k].obj)
    ensures var w1 := Called(w, k, v);
            var loss := BlockCreateLoss(w.clusters[k].obj, v.reply, v.patch);
            && v.made.value in w1.blocks && w1.blocks[v.made.value] == Asset(k, false)
            && (v.made.value in w1.lostBlocks <==> loss.Some?)
            && (loss.Some? ==> w1.lostBlocks[v.made.value] == loss.value && AllocationFault(loss.value))
            && (loss.None? <==> C.GetIPAllocationID(v.stored) == v.made.value)
  {
  }

  /** A block just created is recorded, or charged to the fault that kept it from being recorded. */
  lemma NewBlockIsAccounted(w: World, k: Key, v: Move)
    requires Lawful(w, k, v) && v.call == Some(PostBlock) && v.made.Some?
    requires v.made.value !in w.lostBlocks && ClusterOK(w.blocks, w.log, k, w.clusters[k])
    ensures var w' := Moved(w, k, v);
            && v.made.value in w'.blocks && BlockOK(w', v.made.value)
            && (HeldBlock(w', v.made.value) <==> BlockCreateLoss(w.clusters[k].obj, v.reply, v.patch).None?)
  {
    NewBlockIsBooked(w, k, v);
    var w1 := Called(w, k, v);
    assert !v.stored.deleting;
    assert Moved(w, k, v) == w1.(clusters := w1.clusters[k := ClusterSlot(v.stored, false)]);
  }

  lemma LawfulKeepsBlocks(w: World, k: Key, v: Move)
    requires BlocksInv(w) && Lawful(w, k, v)
    ensures forall b :: b in Moved(w, k, v).blocks ==> BlockOK(Moved(w, k, v), b)
  {
    LawfulKeepsCluster(w, k, v, k);
    forall b | b in Moved(w, k, v).blocks
      ensures BlockOK(Moved(w, k, v), b)
    {
      if b in w.blocks {
        OldBlocksKeepTheirAccount(w, k, v, b);
      } else {
        assert ClusterOK(w.blocks, w.log, k, w.clusters[k]);
        NewBlockIsAccounted(w, k, v);
      }
    }
  }

  lemma LawfulChargesKnownBlocks(w: World, k: Key, v: Move, b: string)
    requires Lawful(w, k, v) && ClusterOK(w.blocks, w.log, k, w.clusters[k])
    requires b in Moved(w, k, v).lostBlocks && (b in w.lostBlocks ==> b in w.blocks)
    ensures b in Moved(w, k, v).blocks
  {
    assert Moved(w, k, v).blocks == CloudAfter(w.blocks, k, v.call, v.reply, v.made);
  }

  lemma LawfulKeepsEntry(w: World, k: Key, v: Move, e: Entry)
    requires Lawful(w, k, v) && ClusterOK(w.blocks, w.log, k, w.clusters[k])
    requires e in Moved(w, k, v).log && (e in w.log ==> BlockEntryOK(w.blocks, e))
    ensures BlockEntryOK(Moved(w, k, v).blocks, e)
  {
    assert Moved(w, k, v).blocks == CloudAfter(w.blocks, k, v.call, v.reply, v.made);
  }

  lemma LawfulKeepsLedgers(w: World, k: Key, v: Move)
    requires BlocksInv(w) && Lawful(w, k, v)
    ensures var w' := Moved(w, k, v);
            && (forall b :: b in w'.lostBlocks ==> b in w'.blocks)
            && (forall e :: e in w'.log ==> BlockEntryOK(w'.blocks, e))
  {
    var w' := Moved(w, k, v);
    assert ClusterOK(w.blocks, w.log, k, w.clusters[k]);
    forall b | b in w'.lostBlocks
      ensures b in w'.blocks
    {
      LawfulChargesKnownBlocks(w, k, v, b);
    }
    forall e | e in w'.log
      ensures BlockEntryOK(w'.blocks, e)
    {
      LawfulKeepsEntry(w, k, v, e);
    }
  }

  lemma ReconcileKeepsBlocksInv(w: World, k: Key, env: C.ClusterEnv, made: Option<string>)
    requires BlocksInv(w) && ClusterPresent(w, k) && Allowed(w, ReconcileCluster(k, env, made))
    ensures BlocksInv(StepCluster(w, k, env, made))
  {
    var v := MoveOf(w, k, env, made);
    ReconcileIsLawful(w, k, env, made);
    forall k' | k' in w.clusters
      ensures ClusterOK(Moved(w, k, v).blocks, Moved(w, k, v).log, k', Moved(w, k, v).clusters[k'])
    {
      LawfulKeepsCluster(w, k, v, k');
    }
    LawfulKeepsBlocks(w, k, v);
    LawfulKeepsLedgers(w, k, v);
    assert StepCluster(w, k, env, made) == Moved(w, k, v);
  }

  // ---------- the other steps ----------

  /** The parts of the world the block invariant speaks about, after a machine's reconcile. */
  lemma MachineStepLeavesBlocks(w: World, l: Label)
    requires l.ReconcileMachine? && MachinePresent(w, l.key)
    ensures var w' := Step(w, l);
            var call := MachineEffectIn(w, l.key, l.menv).call;
            && w'.clusters == w.clusters && w'.blocks == w.blocks && w'.lostBlocks == w.lostBlocks
            && w'.log == if call.Some? then w.log + [MachineCall(l.key, call.value, l.menv.reply)] else w.log
  {
  }

  lemma MachineStepKeepsBlocksInv(w: World, l: Label)
    requires BlocksInv(w) && l.ReconcileMachine? && MachinePresent(w, l.key)
    ensures BlocksInv(Step(w, l))
  {
    var w' := Step(w, l);
    MachineStepLeavesBlocks(w, l);
    var call := MachineEffectIn(w, l.key, l.menv).call;
    forall k | k in w'.clusters
      ensures ClusterOK(w'.blocks, w'.log, k, w'.clusters[k])
    {
      assert ClusterOK(w.blocks, w.log, k, w.clusters[k]);
      if call.Some? {
        ClusterFramed(w.blocks, w.blocks, w.log, [MachineCall(l.key, call.value, l.menv.reply)], k, w.clusters[k]);
      }
    }
    forall b | b in w'.blocks
      ensures BlockOK(w', b)
    {
      assert BlockOK(w, b);
    }
  }

  lemma StoringKeepsBlock(w: World, k: Key, c: Cluster, b: string)
    requires ClusterPresent(w, k) && b in w.blocks && BlockOK(w, b)
    requires C.GetIPAllocationID(c) == C.GetIPAllocationID(w.clusters[k].obj)
    requires w.clusters[k].obj.deleting ==> c.deleting
    requires ClusterOK(w.blocks, w.log, k, StoreCluster(w, k, c).clusters[k])
    ensures BlockOK(StoreCluster(w, k, c), b)
  {
    if w.blocks[b].owner != k {
      assert b != C.GetIPAllocationID(c);
    }
  }

  lemma StoringKeepsBlocksInv(w: World, k: Key, c: Cluster)
    requires BlocksInv(w) && ClusterPresent(w, k)
    requires C.GetIPAllocationID(c) == C.GetIPAllocationID(w.clusters[k].obj)
    requires w.clusters[k].obj.deleting ==> c.deleting
    requires ClusterOK(w.blocks, w.log, k, StoreCluster(w, k, c).clusters[k])
    ensures BlocksInv(StoreCluster(w, k, c))
  {
    forall b | b in w.blocks
      ensures BlockOK(StoreCluster(w, k, c), b)
    {
      StoringKeepsBlock(w, k, c, b);
    }
  }

  lemma EditKeepsBlocksInv(w: World, k: Key, c: Cluster)
    requires BlocksInv(w) && ClusterPresent(w, k)
    requires var o := w.clusters[k].obj;
             && c.annotations == o.annotations && c.endpoint == o.endpoint && c.status == o.status
             && (o.deleting ==> c.deleting) && (ClusterFinalizer in c.finalizers <==> ClusterFinalizer in o.finalizers)
    ensures BlocksInv(StoreCluster(w, k, c))
  {
    assert ClusterOK(w.blocks, w.log, k, w.clusters[k]);
    StoringKeepsBlocksInv(w, k, c);
  }

  lemma ObjectStepsKeepBlocksInv(w: World, l: Label)
    requires BlocksInv(w)
    requires l.MarkClusterDeleted? || l.EditClusterFinalizers?
    ensures BlocksInv(Step(w, l))
  {
    if ClusterPresent(w, l.key) {
      var c := w.clusters[l.key].obj;
      if l.MarkClusterDeleted? {
        EditKeepsBlocksInv(w, l.key, c.(deleting := true));
      } else {
        EditKeepsBlocksInv(w, l.key, c.(finalizers := Edited(c.finalizers, ClusterFinalizer, l.foreign)));
      }
    }
  }

  lemma RegisterKeepsBlocksInv(w: World, k: Key, c: Cluster)
    requires BlocksInv(w) && k !in w.clusters && PristineCluster(c)
    ensures BlocksInv(Step(w, RegisterCluster(k, c)))
  {
    var w' := Step(w, RegisterCluster(k, c));
    forall b | b in w'.blocks
      ensures BlockOK(w', b)
    {
      assert BlockOK(w, b);
    }
  }

  lemma UntouchedBlocksKeepInv(w: World, w': World)
    requires BlocksInv(w)
    requires w'.blocks == w.blocks && w'.clusters == w.clusters && w'.lostBlocks == w.lostBlocks && w'.log == w.log
    ensures BlocksInv(w')
  {
    forall b | b in w'.blocks
      ensures BlockOK(w', b)
    {
      assert BlockOK(w, b);
    }
  }

  lemma StepKeepsBlocksInv(w: World, l: Label)
    requires BlocksInv(w) && Allowed(w, l)
    ensures BlocksInv(Step(w, l))
  {
    match l
    case ReconcileMachine(k, _, _) =>
      if MachinePresent(w, k) {
        MachineStepKeepsBlocksInv(w, l);
      }
    case ReconcileCluster(k, env, made) =>
      if ClusterPresent(w, k) {
        ReconcileKeepsBlocksInv(w, k, env, made);
      }
    case RegisterCluster(k, c) =>
      if k !in w.clusters {
        RegisterKeepsBlocksInv(w, k, c);
      }
    case MarkClusterDeleted(_) => ObjectStepsKeepBlocksInv(w, l);
    case EditClusterFinalizers(_, _) => ObjectStepsKeepBlocksInv(w, l);
    case _ => UntouchedBlocksKeepInv(w, Step(w, l));
  }

  /** The invariant holds in every state of every run. */
  lemma {:induction false} RunKeepsBlocksInv(w: World, labels: seq<Label>)
    requires BlocksInv(w) && ValidRun(w, labels)
    ensures BlocksInv(Run(w, labels))
    decreases |labels|
  {
    if labels != [] {
      StepKeepsBlocksInv(w, labels[0]);
      RunKeepsBlocksInv(Step(w, labels[0]), labels[1..]);
    }
  }
}
