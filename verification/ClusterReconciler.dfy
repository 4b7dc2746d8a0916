/**
 The cluster controller as it runs: a context object whose fields the reconcile methods
 update one by one, and the deferred patch at the end. Every method is proved to leave the
 object, and to have sent and reported, exactly what ClusterModel says.
 */
module ClusterReconciler {
  import opened Wrappers
  import opened Api
  import C = ClusterModel
  import Ipv4

  class ClusterContext {
    const deleting: bool
    const vip: VIPManager
    var finalizers: set<Finalizer>
    var annotations: Option<map<Annotation, string>>
    var endpoint: Endpoint
    var status: ClusterStatus
    // what the BMC client and the recorder have seen
    var call: Option<Call>
    var events: seq<Reason>

    constructor (c: Cluster)
      ensures Object() == c && Fresh()
    {
      deleting := c.deleting;
      vip := c.vip;
      finalizers := c.finalizers;
      annotations := c.annotations;
      endpoint := c.endpoint;
      status := c.status;
      call := None;
      events := [];
    }

    /** The BMCCluster the context points at. */
    function Object(): Cluster
      reads this
    {
      Cluster(finalizers, annotations, deleting, vip, endpoint, status)
    }

    predicate Fresh()
      reads this
    {
      call == None && events == []
    }

    function Effect(result: Result): C.ClusterEffect
      reads this
    {
      C.ClusterEffect(Object(), call, events, result)
    }

    // ---------- closures.go ----------

    predicate HasFini()
      reads this
    {
      ClusterFinalizer in finalizers
    }

    method AddFini()
      modifies this`finalizers
      ensures finalizers == old(finalizers) + {ClusterFinalizer}
    {
      finalizers := finalizers + {ClusterFinalizer};
    }

    method RemoveFini()
      modifies this`finalizers
      ensures finalizers == old(finalizers) - {ClusterFinalizer}
    {
      finalizers := finalizers - {ClusterFinalizer};
    }

    function GetIPAllocationID(): string
      reads this
    {
      Lookup(annotations, IPAllocationID)
    }

    function GetIP(): string
      reads this
    {
      Lookup(annotations, ClusterIP)
    }

    predicate IsStatusEqual(s: BMCStatus)
      reads this
    {
      status.bmcStatus == s
    }

    /** Writes the allocation id; writing to a nil map panics. */
    method SetIPAllocationID(id: string) returns (panicked: bool)
      modifies this`annotations
      ensures panicked <==> old(annotations).None?
      ensures annotations == if panicked then None else Some(old(annotations).value[IPAllocationID := id])
    {
      match annotations {
        case None => panicked := true;
        case Some(a) =>
          annotations := Some(a[IPAllocationID := id]);
          panicked := false;
      }
    }

    method SetIP(ip: string)
      requires annotations.Some?
      modifies this`annotations
      ensures annotations == Some(old(annotations).value[ClusterIP := ip])
    {
      annotations := Some(annotations.value[ClusterIP := ip]);
    }

    method SetStatus(s: ClusterStatus)
      modifies this`status
      ensures Object() == C.Described(old(Object()), s)
    {
      status := status.(id := s.id);
      status := status.(cidr := s.cidr);
      status := status.(bmcStatus := s.bmcStatus);
    }

    method SetBMCStatus(s: BMCStatus)
      modifies this`status
      ensures Object() == C.WithStatus(old(Object()), s)
    {
      status := status.(bmcStatus := s);
    }

    method SetControlPlaneEndpoint(host: string, port: int)
      modifies this`endpoint
      ensures endpoint == Endpoint(host, port)
    {
      endpoint := Endpoint(host, port);
    }

    method SetReady()
      modifies this`status
      ensures Object() == C.MadeReady(old(Object()))
    {
      status := status.(ready := true);
    }

    method Event(reason: Reason)
      modifies this`events
      ensures events == old(events) + [reason]
    {
      events := events + [reason];
    }

    method Send(c: Call)
      requires call == None
      modifies this`call
      ensures call == Some(c)
    {
      call := Some(c);
    }

    /** Reports a status and records it, unless it is recorded already. */
    method Note(s: BMCStatus, reason: Reason)
      modifies this`status, this`events
      ensures Object() == C.WithStatus(old(Object()), s)
      ensures events == if old(status.bmcStatus) == s then old(events) else old(events) + [reason]
    {
      if !IsStatusEqual(s) {
        Event(reason);
        SetBMCStatus(s);
      }
    }

    // ---------- the reconcile methods ----------

    method ReconcileCreate(env: C.ClusterEnv) returns (result: Result)
      requires Fresh()
      modifies this
      ensures Effect(result) == C.CreateEffect(old(Object()), env.reply)
    {
      Send(PostBlock);
      if !env.reply.Response? {
        Event(CreateError);
        return Failed(NoRequeue);
      }
      var code := env.reply.code;
      if code == 400 || code == 401 || code == 403 {
        Note(Irreconcilable, CreateErrorPermanent);
        return Done(NoRequeue);
      } else if code == 500 {
        Event(CreateFailure);
        return Done(NoRequeue);
      } else if !Success(code) {
        Event(CreateError);
        return Failed(NoRequeue);
      }
      if env.reply.body.None? {
        Event(CreateError);
        return Failed(NoRequeue);
      }
      var ips := env.reply.body.value;
      Event(Created);
      SetStatus(ips);
      var panicked := SetIPAllocationID(ips.id);
      if panicked {
        return Panicked;
      }
      var addr := Ipv4.DeriveControlPlane(ips.cidr);
      if addr.None? {
        return Panicked;
      }
      SetIP(addr.value);
      SetControlPlaneEndpoint(addr.value, 6443);
      SetReady();
      return Done(NoRequeue);
    }

    method ReconcileSynchronize(env: C.ClusterEnv) returns (result: Result)
      requires Fresh()
      modifies this
      ensures Effect(result) == C.SyncEffect(old(Object()), env.reply)
    {
      Send(GetBlock(GetIPAllocationID()));
      if !env.reply.Response? {
        Note(Stale, StatusChange);
        return Failed(After2Min);
      }
      var code := env.reply.code;
      if code == 400 || code == 401 {
        Note(Irreconcilable, PollFailure);
        return Done(After5Min);
      } else if code == 403 {
        Note(Orphaned, ResourceOrphaned);
        return Done(NoRequeue);
      } else if code == 500 {
        Note(Stale, ResourceOrphaned);
        return Done(After5Min);
      } else if !Success(code) {
        Event(PollFailure);
        return Failed(NoRequeue);
      }
      if env.reply.body.None? {
        Note(Stale, PollFailure);
        return Failed(After2Min);
      }
      var ss := env.reply.body.value;
      if !IsStatusEqual(ss.bmcStatus) {
        Event(StatusChange);
        SetStatus(ss);
      }
      if IsStatusEqual(Assigned) && vip == NONE && !status.ready {
        SetReady();
      }
      if IsStatusEqual(NotAssigned) && vip == KUBEVIP && !status.ready {
        SetReady();
      }
      return Done(After5Min);
    }

    method ReconcileDelete(env: C.ClusterEnv) returns (result: Result)
      requires Fresh()
      modifies this
      ensures Effect(result) == C.DeleteEffect(old(Object()), env.reply)
    {
      if IsStatusEqual(NotAssigned) {
        Send(DeleteBlock(GetIPAllocationID()));
        if env.reply.TransportError? {
          return Panicked;
        }
      }
      Event(ClusterDeleted);
      RemoveFini();
      return Done(NoRequeue);
    }

    method ReconcileLive(env: C.ClusterEnv) returns (result: Result)
      requires Fresh()
      modifies this
      ensures Effect(result) == C.LiveEffect(old(Object()), env)
    {
      if !HasFini() {
        AddFini();
      }
      assert finalizers == old(finalizers) + {ClusterFinalizer};
      if GetIP() == "" {
        result := ReconcileCreate(env);
      } else {
        result := ReconcileSynchronize(env);
      }
    }
  }

  /** Reconcile: looks the owner up, dispatches, and persists what the context holds on the way out. */
  method Reconcile(stored: Cluster, env: C.ClusterEnv)
    returns (persisted: Cluster, call: Option<Call>, events: seq<Reason>, result: Result)
    ensures var eff := C.ReconcileEffect(stored, env);
            && persisted == C.Persisted(stored, eff.obj, env.patch)
            && call == eff.call && events == eff.events && result == eff.result
  {
    if env.gate == C.OwnerLookupFailed {
      return stored, None, [], Failed(NoRequeue);
    }
    if env.gate == C.OwnerMissing || env.gate == C.Paused {
      return stored, None, [], Done(NoRequeue);
    }
    var cc := new ClusterContext(stored);
    if cc.deleting {
      result := cc.ReconcileDelete(env);
    } else {
      result := cc.ReconcileLive(env);
    }
    persisted := C.Persisted(stored, cc.Object(), env.patch);
    call, events := cc.call, cc.events;
  }
}
