/**
 The machine controller as it runs: a context object whose fields the reconcile methods
 update one by one, and the deferred patch at the end. Every method is proved to leave the
 object, and to have sent and reported, exactly what MachineModel says.
 */
module MachineReconciler {
  import opened Wrappers
  import opened Api
  import M = MachineModel

  class MachineContext {
    const site: M.Site
    const deleting: bool
    var finalizers: set<Finalizer>
    var annotations: Option<map<Annotation, string>>
    var providerID: Option<string>
    var status: MachineStatus
    // what the BMC client, the recorder and the remote client have seen
    var call: Option<Call>
    var events: seq<Reason>
    var nodeProviderID: Option<string>

    constructor (m: Machine, site: M.Site)
      ensures this.site == site && Object() == m && Fresh()
    {
      this.site := site;
      deleting := m.deleting;
      finalizers := m.finalizers;
      annotations := m.annotations;
      providerID := m.providerID;
      status := m.status;
      call := None;
      events := [];
      nodeProviderID := None;
    }

    /** The BMCMachine the context points at. */
    function Object(): Machine
      reads this
    {
      Machine(finalizers, annotations, deleting, providerID, status)
    }

    /** Nothing sent and nothing reported yet. */
    predicate Fresh()
      reads this
    {
      call == None && events == [] && nodeProviderID == None
    }

    function Effect(result: Result): M.MachineEffect
      reads this
    {
      M.MachineEffect(Object(), call, events, nodeProviderID, result)
    }

    // ---------- closures.go ----------

    predicate HasFini()
      reads this
    {
      MachineFinalizer in finalizers
    }

    method AddFini()
      modifies this`finalizers
      ensures finalizers == old(finalizers) + {MachineFinalizer}
    {
      finalizers := finalizers + {MachineFinalizer};
    }

    method RemoveFini()
      modifies this`finalizers
      ensures finalizers == old(finalizers) - {MachineFinalizer}
    {
      finalizers := finalizers - {MachineFinalizer};
    }

    function GetMachineID(): string
      reads this
    {
      Lookup(annotations, ServerID)
    }

    predicate IsStatusEqual(s: BMCStatus)
      reads this
    {
      status.bmcStatus == s
    }

    /** Writes the provider id, then the annotation; writing to a nil map panics in between. */
    method SetMachineID(id: string) returns (panicked: bool)
      modifies this`providerID, this`annotations
      ensures providerID == Some("bmc://servers/" + id)
      ensures panicked <==> old(annotations).None?
      ensures annotations == if panicked then None else Some(old(annotations).value[ServerID := id])
    {
      providerID := Some("bmc://servers/" + id);
      match annotations {
        case None => panicked := true;
        case Some(a) =>
          annotations := Some(a[ServerID := id]);
          panicked := false;
      }
    }

    method SetStatus(s: MachineStatus)
      modifies this`status
      ensures status == s
    {
      status := s;
    }

    method MergeBMCStatusProperties(s: MachineStatus)
      modifies this`status
      ensures Object() == M.Merged(old(Object()), s)
    {
      status := status.(bmcServerID := s.bmcServerID);
      status := status.(bmcStatus := s.bmcStatus);
      status := status.(cpu := s.cpu);
      status := status.(cpuCount := s.cpuCount);
      status := status.(cpuCores := s.cpuCores);
      status := status.(cpuFrequency := s.cpuFrequency);
      status := status.(ram := s.ram);
      status := status.(storage := s.storage);
      status := status.(privateIPs := s.privateIPs);
      status := status.(publicIPs := s.publicIPs);
    }

    method SetBMCStatus(s: BMCStatus)
      modifies this`status
      ensures Object() == M.WithStatus(old(Object()), s)
    {
      status := status.(bmcStatus := s);
    }

    method SetIrreconcilable(reason: FailureReason, message: FailureMessage)
      modifies this`status
      ensures Object() == M.MadeIrreconcilable(old(Object()), reason, message)
    {
      status := status.(failureReason := Some(reason));
      status := status.(failureMessage := Some(message));
      status := status.(bmcStatus := Irreconcilable);
    }

    /** Marks the machine ready and lists its public addresses, appended one by one. */
    method SetReady()
      modifies this`status
      ensures Object() == M.MadeReady(old(Object()))
    {
      status := status.(ready := true);
      var ips := status.publicIPs;
      var addrs: seq<NodeAddress> := [];
      for i := 0 to |ips|
        invariant addrs == M.ExternalAddresses(ips)[..i]
      {
        addrs := addrs + [NodeAddress(ExternalIP, ips[i])];
      }
      status := status.(addresses := addrs);
    }

    method Event(reason: Reason)
      modifies this`events
      ensures events == old(events) + [reason]
    {
      events := events + [reason];
    }

    method Send(c: Call)
      requires call == None
      modifies this`call
      ensures call == Some(c)
    {
      call := Some(c);
    }

    /** Binds the workload node once; dereferencing a nil provider id panics. */
    method SetNodeRef(node: M.NodeLookup) returns (panicked: bool)
      requires nodeProviderID == None
      modifies this`status, this`events, this`nodeProviderID
      ensures var b := M.Bound(old(Object()), site.hostname, node);
              Object() == b.obj && events == old(events) + b.events && nodeProviderID == b.written && panicked == b.panicked
    {
      panicked := false;
      if status.nodeRef.None? {
        if !node.NodeFound? {
          Event(FailureNodeRef);
          return;
        }
        status := status.(nodeRef := Some(NodeRef(site.hostname, node.uid)));
        Event(SuccessNodeRef);
        if node.write == M.HelperFailed {
          Event(FailureNodeRef);
          return;
        }
        if providerID.None? {
          return true;
        }
        if node.write == M.PatchFailed {
          Event(FailureNodeRef);
          return;
        }
        nodeProviderID := providerID;
      }
    }

    // ---------- the reconcile methods ----------

    /** Reports a rejected create and records why, unless the machine is irreconcilable already. */
    method Reject(code: int)
      modifies this`status, this`events
      ensures var known := old(status.bmcStatus) == Irreconcilable;
              && Object() == (if known then old(Object())
                              else M.MadeIrreconcilable(old(Object()), InvalidConfiguration, CreateCode(code)))
              && events == (if known then old(events) else old(events) + [CreateErrorPermanent])
    {
      if !IsStatusEqual(Irreconcilable) {
        Event(CreateErrorPermanent);
        SetIrreconcilable(InvalidConfiguration, CreateCode(code));
      }
    }

    method ReconcileCreate(env: M.MachineEnv) returns (result: Result)
      requires Fresh()
      modifies this
      ensures Effect(result) == M.CreateEffect(old(Object()), site, env)
    {
      if env.secret != M.Available {
        return Failed(NoRequeue);
      }
      var blocks := [];
      if site.controlPlane && site.vip == NONE {
        if site.allocationID == "" {
          return Done(NoRequeue);
        }
        blocks := [site.allocationID];
      }
      Send(PostServer(blocks));
      if !env.reply.Response? {
        Event(CreateError);
        return Failed(NoRequeue);
      }
      var code := env.reply.code;
      if code == 400 || code == 401 || code == 403 {
        Reject(code);
        return Done(NoRequeue);
      } else if code == 406 {
        Event(CreateErrorInventory);
        return Done(After5Min);
      } else if code == 409 {
        Reject(code);
        return Done(After2Min);
      } else if code == 500 {
        Event(CreateFailure);
        return Done(After2Min);
      } else if !Success(code) {
        Event(CreateError);
        return Failed(NoRequeue);
      }
      if env.reply.body.None? {
        Event(CreateError);
        return Failed(NoRequeue);
      }
      var ss := env.reply.body.value;
      Event(Created);
      SetStatus(ss);
      var panicked := SetMachineID(ss.bmcServerID);
      result := if panicked then Panicked else Done(After1Min);
    }

    /** Reports a status and records it, unless it is recorded already. */
    method Note(s: BMCStatus, reason: Reason)
      modifies this`status, this`events
      ensures Object() == M.WithStatus(old(Object()), s)
      ensures events == if old(status.bmcStatus) == s then old(events) else old(events) + [reason]
    {
      if !IsStatusEqual(s) {
        Event(reason);
        SetBMCStatus(s);
      }
    }

    method ReconcileSynchronize(env: M.MachineEnv) returns (result: Result)
      requires Fresh()
      modifies this
      ensures Effect(result) == M.SyncEffect(old(Object()), site.hostname, env.reply, env.node)
    {
      Send(GetServer(GetMachineID()));
      if !env.reply.Response? {
        Note(Stale, StatusChange);
        return Failed(After2Min);
      }
      var code := env.reply.code;
      if code == 400 || code == 401 {
        if !IsStatusEqual(Irreconcilable) {
          Event(PollFailure);
          SetIrreconcilable(InvalidConfiguration, ReadCode(code));
        }
        return Done(After5Min);
      } else if code == 403 {
        Note(Orphaned, ResourceOrphaned);
        return Done(NoRequeue);
      } else if code == 500 {
        Note(Stale, PollFailure);
        return Done(After5Min);
      } else if !Success(code) {
        Event(PollFailure);
        return Failed(NoRequeue);
      }
      if env.reply.body.None? {
        Note(Stale, PollFailure);
        return Failed(After2Min);
      }
      result := Absorb(env.reply.body.value, env.node);
    }

    /** The part of reconcileSynchronize after a reply has been decoded. */
    method Absorb(ss: MachineStatus, node: M.NodeLookup) returns (result: Result)
      requires call.Some? && events == [] && nodeProviderID == None
      modifies this`status, this`events, this`nodeProviderID
      ensures Effect(result) == M.PolledEffect(old(Object()), call.value, site.hostname, ss, node)
    {
      if !IsStatusEqual(ss.bmcStatus) {
        Event(StatusChange);
        MergeBMCStatusProperties(ss);
        match status.bmcStatus {
          case PoweredOn => SetReady();
          case Error => SetIrreconcilable(CreateMachineError, Unrecoverable);
          case _ =>
        }
      }
      match ss.bmcStatus {
        case PoweredOn =>
          var panicked := SetNodeRef(node);
          if panicked {
            return Panicked;
          }
          if !status.ready {
            MergeBMCStatusProperties(ss);
            SetReady();
          }
          return Done(After2Min);
        case Error =>
          return Done(NoRequeue);
        case _ =>
          return Done(After1Min);
      }
    }

    method ReconcileDelete(env: M.MachineEnv) returns (result: Result)
      requires Fresh()
      modifies this
      ensures Effect(result) == M.DeleteEffect(old(Object()), env.reply)
    {
      RemoveFini();
      var id := GetMachineID();
      if !IsStatusEqual(Orphaned) && id != "" {
        Send(Deprovision(id));
        if !env.reply.Response? {
          Event(CleanupError);
          return Failed(NoRequeue);
        }
        var code := env.reply.code;
        if code == 400 || code == 401 {
          SetBMCStatus(Irreconcilable);
          return Done(After2Min);
        } else if code == 403 {
          SetBMCStatus(Orphaned);
          return Done(After2Min);
        } else if code == 500 {
          return Done(After2Min);
        } else if Success(code) {
          Event(CleanupSuccess);
        } else {
          Event(CleanupError);
          return Failed(After2Min);
        }
      }
      return Done(NoRequeue);
    }

    method ReconcileLive(env: M.MachineEnv) returns (result: Result)
      requires Fresh()
      modifies this
      ensures Effect(result) == M.LiveEffect(old(Object()), site, env)
    {
      if !HasFini() {
        AddFini();
      }
      assert finalizers == old(finalizers) + {MachineFinalizer};
      if !site.infrastructureReady {
        return Done(NoRequeue);
      }
      if env.secret == M.NameMissing {
        return Done(NoRequeue);
      }
      if GetMachineID() == "" {
        result := ReconcileCreate(env);
      } else {
        result := ReconcileSynchronize(env);
      }
    }
  }

  /** Reconcile: looks the surroundings up, dispatches, and persists what the context holds on the way out. */
  method Reconcile(stored: Machine, site: M.Site, env: M.MachineEnv)
    returns (persisted: Machine, call: Option<Call>, events: seq<Reason>, nodeProviderID: Option<string>, result: Result)
    ensures var eff := M.ReconcileEffect(stored, site, env);
            && persisted == M.Persisted(stored, eff.obj, env.patch)
            && call == eff.call && events == eff.events && nodeProviderID == eff.nodeProviderID && result == eff.result
  {
    if env.gate == M.OwnerLookupFailed {
      return stored, None, [], None, Failed(NoRequeue);
    }
    if env.gate == M.OwnerMissing {
      return stored, None, [], None, Done(NoRequeue);
    }
    var mc := new MachineContext(stored, site);
    if mc.deleting {
      result := mc.ReconcileDelete(env);
    } else if env.gate == M.ClusterLookupFailed {
      result := Failed(NoRequeue);
    } else if env.gate == M.InfrastructureRefMissing {
      result := Panicked;
    } else if env.gate == M.BMCClusterMissing || env.gate == M.Paused {
      result := Done(NoRequeue);
    } else {
      result := mc.ReconcileLive(env);
    }
    persisted := M.Persisted(stored, mc.Object(), env.patch);
    call, events, nodeProviderID := mc.call, mc.events, mc.nodeProviderID;
  }
}
