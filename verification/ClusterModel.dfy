/**
 What one reconcile of a BMCCluster does, as functions on values. ClusterReconciler proves
 that the step-by-step controller computes these functions.
 */
module ClusterModel {
  import opened Wrappers
  import opened Api
  import Ipv4

  datatype ClusterGate = OwnerLookupFailed | OwnerMissing | Paused | Open

  /** Everything the environment decides during one reconcile of a cluster. */
  datatype ClusterEnv = ClusterEnv(gate: ClusterGate, reply: Reply<ClusterStatus>, patch: Patch)

  datatype ClusterEffect = ClusterEffect(obj: Cluster, call: Option<Call>, events: seq<Reason>, result: Result)

  const API_SERVER_PORT := 6443

  // ---------- closures.go ----------

  function GetIPAllocationID(c: Cluster): string {
    Lookup(c.annotations, IPAllocationID)
  }

  function GetIP(c: Cluster): string {
    Lookup(c.annotations, ClusterIP)
  }

  function WithStatus(c: Cluster, s: BMCStatus): Cluster {
    c.(status := c.status.(bmcStatus := s))
  }

  function Described(c: Cluster, s: ClusterStatus): Cluster {
    c.(status := c.status.(id := s.id, cidr := s.cidr, bmcStatus := s.bmcStatus))
  }

  function MadeReady(c: Cluster): Cluster {
    c.(status := c.status.(ready := true))
  }

  function Annotated(c: Cluster, key: Annotation, value: string): Cluster
    requires c.annotations.Some?
  {
    c.(annotations := Some(c.annotations.value[key := value]))
  }

  // ---------- reconcileCreate ----------

  /** The cluster after an IP block was decoded from a 2xx reply, and how the reconcile ends. */
  function Adopted(c: Cluster, s: ClusterStatus): (Cluster, Result) {
    var c1 := Described(c, s);
    if c1.annotations.None? then (c1, Panicked)
    else
      var c2 := Annotated(c1, IPAllocationID, s.id);
      match Ipv4.ControlPlaneText(s.cidr)
      case None => (c2, Panicked)
      case Some(ip) =>
        (MadeReady(Annotated(c2, ClusterIP, ip).(endpoint := Endpoint(ip, API_SERVER_PORT))), Done(NoRequeue))
  }

  function CreateEffect(c: Cluster, reply: Reply<ClusterStatus>): ClusterEffect {
    match reply
    case TransportError => ClusterEffect(c, Some(PostBlock), [CreateError], Failed(NoRequeue))
    case BodyUnreadable => ClusterEffect(c, Some(PostBlock), [CreateError], Failed(NoRequeue))
    case Response(code, body) =>
      if code == 400 || code == 401 || code == 403 then
        if c.status.bmcStatus == Irreconcilable then
          ClusterEffect(c, Some(PostBlock), [], Done(NoRequeue))
        else
          ClusterEffect(WithStatus(c, Irreconcilable), Some(PostBlock), [CreateErrorPermanent], Done(NoRequeue))
      else if code == 500 then
        ClusterEffect(c, Some(PostBlock), [CreateFailure], Done(NoRequeue))
      else if !Success(code) || body.None? then
        ClusterEffect(c, Some(PostBlock), [CreateError], Failed(NoRequeue))
      else
        var (c1, result) := Adopted(c, body.value);
        ClusterEffect(c1, Some(PostBlock), [Created], result)
  }

  // ---------- reconcileSynchronize ----------

  function Noted(c: Cluster, call: Call, s: BMCStatus, reason: Reason, result: Result): ClusterEffect {
    if c.status.bmcStatus == s then
      ClusterEffect(c, Some(call), [], result)
    else
      ClusterEffect(WithStatus(c, s), Some(call), [reason], result)
  }

  /** The recorded status, together with the VIP manager, makes the cluster ready. */
  predicate Serviceable(c: Cluster) {
    (c.status.bmcStatus == Assigned && c.vip == NONE) || (c.status.bmcStatus == NotAssigned && c.vip == KUBEVIP)
  }

  function PolledEffect(c: Cluster, call: Call, s: ClusterStatus): ClusterEffect {
    var delta := c.status.bmcStatus != s.bmcStatus;
    var c1 := if delta then Described(c, s) else c;
    ClusterEffect(if Serviceable(c1) then MadeReady(c1) else c1,
                  Some(call), if delta then [StatusChange] else [], Done(After5Min))
  }

  function SyncEffect(c: Cluster, reply: Reply<ClusterStatus>): ClusterEffect {
    var call := GetBlock(GetIPAllocationID(c));
    match reply
    case TransportError => Noted(c, call, Stale, StatusChange, Failed(After2Min))
    case BodyUnreadable => Noted(c, call, Stale, StatusChange, Failed(After2Min))
    case Response(code, body) =>
      if code == 400 || code == 401 then
        Noted(c, call, Irreconcilable, PollFailure, Done(After5Min))
      else if code == 403 then
        Noted(c, call, Orphaned, ResourceOrphaned, Done(NoRequeue))
      else if code == 500 then
        Noted(c, call, Stale, ResourceOrphaned, Done(After5Min))
      else if !Success(code) then
        ClusterEffect(c, Some(call), [PollFailure], Failed(NoRequeue))
      else if body.None? then
        Noted(c, call, Stale, PollFailure, Failed(After2Min))
      else
        PolledEffect(c, call, body.value)
  }

  // ---------- reconcileDelete ----------

  /** A DELETE without an answer has no response body to close, so the reconcile panics before the finalizer goes. */
  function DeleteEffect(c: Cluster, reply: Reply<ClusterStatus>): ClusterEffect {
    var released := c.(finalizers := c.finalizers - {ClusterFinalizer});
    if c.status.bmcStatus != NotAssigned then
      ClusterEffect(released, None, [ClusterDeleted], Done(NoRequeue))
    else if reply.TransportError? then
      ClusterEffect(c, Some(DeleteBlock(GetIPAllocationID(c))), [], Panicked)
    else
      ClusterEffect(released, Some(DeleteBlock(GetIPAllocationID(c))), [ClusterDeleted], Done(NoRequeue))
  }

  // ---------- Reconcile ----------

  function LiveEffect(c: Cluster, env: ClusterEnv): ClusterEffect {
    var c1 := c.(finalizers := c.finalizers + {ClusterFinalizer});
    if GetIP(c1) == "" then CreateEffect(c1, env.reply) else SyncEffect(c1, env.reply)
  }

  function ReconcileEffect(c: Cluster, env: ClusterEnv): ClusterEffect {
    if env.gate == OwnerLookupFailed then
      ClusterEffect(c, None, [], Failed(NoRequeue))
    else if env.gate != Open then
      ClusterEffect(c, None, [], Done(NoRequeue))
    else if c.deleting then
      DeleteEffect(c, env.reply)
    else
      LiveEffect(c, env)
  }

  /** The stored object after the deferred patch: metadata and spec travel together, status on its own. */
  function Persisted(stored: Cluster, c: Cluster, patch: Patch): Cluster {
    var meta := if patch.meta then c else stored;
    Cluster(meta.finalizers, meta.annotations, stored.deleting, stored.vip, meta.endpoint,
            if patch.status then c.status else stored.status)
  }
}
