/**
 What a reconcile of a cluster sends, stores, reports and returns, said of the cluster and the
 reply alone. Nothing here speaks of the functions ClusterModel is made of.
 */
module ClusterOutcomes {
  import opened Wrappers
  import opened Api
  import opened TransitionSystem
  import C = ClusterModel
  import Ipv4

  // ---------- which call is sent ----------

  predicate Proceeds(c: Cluster, env: C.ClusterEnv) {
    env.gate == C.Open && !c.deleting
  }

  predicate Allocates(c: Cluster, env: C.ClusterEnv) {
    Proceeds(c, env) && C.GetIP(c) == ""
  }

  predicate Polls(c: Cluster, env: C.ClusterEnv) {
    Proceeds(c, env) && C.GetIP(c) != ""
  }

  predicate Deletes(c: Cluster, env: C.ClusterEnv) {
    env.gate == C.Open && c.deleting
  }

  /** Exactly when each call is sent, and what it names. */
  lemma CallsIff(c: Cluster, env: C.ClusterEnv)
    ensures forall call :: C.ReconcileEffect(c, env).call == Some(call) <==>
                             match call
                             case PostBlock => Allocates(c, env)
                             case GetBlock(id) => Polls(c, env) && id == C.GetIPAllocationID(c)
                             case DeleteBlock(id) =>
                               Deletes(c, env) && c.status.bmcStatus == NotAssigned && id == C.GetIPAllocationID(c)
                             case _ => false
  {
  }

  /** Before the gates are passed nothing happens, and only a failed lookup is an error. */
  lemma ClosedGate(c: Cluster, env: C.ClusterEnv)
    requires env.gate != C.Open
    ensures var eff := C.ReconcileEffect(c, env);
            eff.obj == c && eff.events == []
            && eff.result == if env.gate == C.OwnerLookupFailed then Failed(NoRequeue) else Done(NoRequeue)
  {
  }

  // ---------- the allocation path ----------

  lemma DeliveredAllocationStores(c: Cluster, env: C.ClusterEnv)
    requires Allocates(c, env) && Delivered(env.reply)
    ensures var c' := C.ReconcileEffect(c, env).obj;
            var s := env.reply.body.value;
            && c'.finalizers == c.finalizers + {ClusterFinalizer} && !c'.deleting && c'.vip == c.vip
            && c'.status.errorMessage == c.status.errorMessage
            && c'.status.id == s.id && c'.status.cidr == s.cidr && c'.status.bmcStatus == s.bmcStatus
            && (c'.status.ready <==> c.status.ready || (c.annotations.Some? && Ipv4.ControlPlaneText(s.cidr).Some?))
  {
  }

  lemma FailedAllocationStores(c: Cluster, env: C.ClusterEnv)
    requires Allocates(c, env) && !Delivered(env.reply)
    ensures C.ReconcileEffect(c, env).obj ==
              c.(finalizers := c.finalizers + {ClusterFinalizer},
                 status := c.status.(bmcStatus := if Answered(env.reply, {400, 401, 403}) then Irreconcilable
                                                  else c.status.bmcStatus))
  {
  }

  /** What an allocation leaves of the status, and of everything else where nothing is delivered. */
  lemma AllocationStores(c: Cluster, env: C.ClusterEnv)
    requires Allocates(c, env)
    ensures var c' := C.ReconcileEffect(c, env).obj;
            && c'.finalizers == c.finalizers + {ClusterFinalizer} && !c'.deleting && c'.vip == c.vip
            && c'.status.errorMessage == c.status.errorMessage
            && if Delivered(env.reply) then
                 var s := env.reply.body.value;
                 && c'.status.id == s.id && c'.status.cidr == s.cidr && c'.status.bmcStatus == s.bmcStatus
                 && (c'.status.ready <==>
                       c.status.ready || (c.annotations.Some? && Ipv4.ControlPlaneText(s.cidr).Some?))
               else
                 && c'.annotations == c.annotations && c'.endpoint == c.endpoint
                 && c'.status == c.status.(bmcStatus := if Answered(env.reply, {400, 401, 403}) then Irreconcilable
                                                        else c.status.bmcStatus)
  {
    if Delivered(env.reply) {
      DeliveredAllocationStores(c, env);
    } else {
      FailedAllocationStores(c, env);
    }
  }

  /** What a delivered allocation writes down: the id, then the address and the endpoint, and no other annotation. */
  lemma AllocationRecords(c: Cluster, env: C.ClusterEnv)
    requires Allocates(c, env) && Delivered(env.reply)
    ensures var c' := C.ReconcileEffect(c, env).obj;
            var s := env.reply.body.value;
            var ip := Ipv4.ControlPlaneText(s.cidr);
            && (c.annotations.None? ==> c'.annotations.None? && c'.endpoint == c.endpoint)
            && (c.annotations.Some? && ip.None? ==>
                  c'.annotations == Some(c.annotations.value[IPAllocationID := s.id]) && c'.endpoint == c.endpoint)
            && (c.annotations.Some? && ip.Some? ==>
                  && c'.annotations == Some(c.annotations.value[IPAllocationID := s.id][ClusterIP := ip.value])
                  && c'.endpoint.host == ip.value && c'.endpoint.port == 6443)
  {
  }

  lemma AllocationReturns(c: Cluster, env: C.ClusterEnv)
    requires Allocates(c, env)
    ensures var eff := C.ReconcileEffect(c, env);
            var r := env.reply;
            && eff.events == (if Delivered(r) then [Created]
                              else if Answered(r, {400, 401, 403}) then
                                if c.status.bmcStatus == Irreconcilable then [] else [CreateErrorPermanent]
                              else if Answered(r, {500}) then [CreateFailure]
                              else [CreateError])
            && (eff.result == Panicked <==>
                  Delivered(r) && (c.annotations.None? || Ipv4.ControlPlaneText(r.body.value.cidr).None?))
            && (eff.result == Failed(NoRequeue) <==> !Delivered(r) && !Answered(r, {400, 401, 403, 500}))
            && (eff.result.Done? ==> eff.result == Done(NoRequeue))
            && (eff.result.Failed? ==> eff.result == Failed(NoRequeue))
  {
  }

  // ---------- the poll path ----------

  /**
   What a poll leaves: the reply's own id, CIDR and status where the status differs, otherwise at most
   the verdict of a reply that delivers nothing; readiness as the VIP manager waits for it.
   */
  lemma PollStores(c: Cluster, env: C.ClusterEnv)
    requires Polls(c, env)
    ensures var c' := C.ReconcileEffect(c, env).obj;
            && c'.finalizers == c.finalizers + {ClusterFinalizer} && !c'.deleting && c'.vip == c.vip
            && c'.annotations == c.annotations && c'.endpoint == c.endpoint
            && c'.status.errorMessage == c.status.errorMessage
            && if Delivered(env.reply) then
                 var s := env.reply.body.value;
                 && c'.status.bmcStatus == s.bmcStatus
                 && (if s.bmcStatus != c.status.bmcStatus then c'.status.id == s.id && c'.status.cidr == s.cidr
                     else c'.status.id == c.status.id && c'.status.cidr == c.status.cidr)
                 && (c'.status.ready <==>
                       || c.status.ready || (s.bmcStatus == Assigned && c.vip == NONE)
                       || (s.bmcStatus == NotAssigned && c.vip == KUBEVIP))
               else
                 && c'.status.id == c.status.id && c'.status.cidr == c.status.cidr && c'.status.ready == c.status.ready
                 && c'.status.bmcStatus == (if Verdict(env.reply).Some? then Verdict(env.reply).value
                                            else c.status.bmcStatus)
  {
  }

  /** What a poll reports and how it returns; an unavailable service is reported like a denied one. */
  lemma PollReturns(c: Cluster, env: C.ClusterEnv)
    requires Polls(c, env)
    ensures var eff := C.ReconcileEffect(c, env);
            var r, recorded := env.reply, c.status.bmcStatus;
            && eff.events == (if Delivered(r) then if r.body.value.bmcStatus != recorded then [StatusChange] else []
                              else if Verdict(r).Some? && Verdict(r).value == recorded then []
                              else if !r.Response? then [StatusChange]
                              else if Answered(r, {403, 500}) then [ResourceOrphaned]
                              else [PollFailure])
            && (eff.result == Done(After5Min) <==> Delivered(r) || Answered(r, {400, 401, 500}))
            && (eff.result == Done(NoRequeue) <==> Answered(r, {403}))
            && (eff.result == Failed(After2Min) <==> Outage(r) && !Answered(r, {500}))
            && (eff.result == Failed(NoRequeue) <==> !Delivered(r) && !Outage(r) && !Answered(r, {400, 401, 403}))
  {
  }

  // ---------- the delete path ----------

  /** What a delete reconcile leaves, reports and returns: it stops half way exactly on an unanswered DELETE. */
  lemma DeletionReturns(c: Cluster, env: C.ClusterEnv)
    requires Deletes(c, env)
    ensures var eff := C.ReconcileEffect(c, env);
            var stopped := c.status.bmcStatus == NotAssigned && env.reply == TransportError;
            && eff.obj == (if stopped then c else c.(finalizers := c.finalizers - {ClusterFinalizer}))
            && eff.events == (if stopped then [] else [ClusterDeleted])
            && eff.result == (if stopped then Panicked else Done(NoRequeue))
  {
  }

  // ---------- nil maps ----------

  /** A cluster with a nil annotation map allocates every time, and panics on every block it gets. */
  lemma NilMapAllocates(c: Cluster, env: C.ClusterEnv)
    requires c.annotations.None? && Proceeds(c, env)
    ensures var eff := C.ReconcileEffect(c, env);
            && eff.call == Some(PostBlock) && eff.obj.annotations.None?
            && (eff.result == Panicked <==> Delivered(env.reply))
  {
  }

  // ---------- what is stored ----------

  /** Metadata and spec are stored exactly with the one request of the deferred patch, the status exactly with the other. */
  lemma PatchPartsArriveAlone(w: World, k: Key, env: C.ClusterEnv, made: Option<string>)
    requires ClusterPresent(w, k)
    ensures var c, c' := w.clusters[k].obj, C.ReconcileEffect(w.clusters[k].obj, env).obj;
            var stored := Step(w, ReconcileCluster(k, env, made)).clusters[k].obj;
            && stored.deleting == c.deleting && stored.vip == c.vip
            && stored.finalizers == (if env.patch.meta then c'.finalizers else c.finalizers)
            && stored.annotations == (if env.patch.meta then c'.annotations else c.annotations)
            && stored.endpoint == (if env.patch.meta then c'.endpoint else c.endpoint)
            && stored.status == (if env.patch.status then c'.status else c.status)
  {
  }
}
