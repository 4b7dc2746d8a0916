/**
 What one reconcile of a BMCMachine does, as functions on values. MachineReconciler proves
 that the step-by-step controller computes these functions; the other modules prove what
 the provider promises about them.
 */
module MachineModel {
  import opened Wrappers
  import opened Api

  /** How far the lookups before reconcileLive got. */
  datatype Gate =
    | OwnerLookupFailed
    | OwnerMissing
    | ClusterLookupFailed
    | InfrastructureRefMissing
    | BMCClusterMissing
    | Paused
    | Open

  datatype Secret = NameMissing | Unreadable | ValueMissing | Available

  datatype NodeWrite = HelperFailed | PatchFailed | Patched

  datatype NodeLookup = RemoteUnavailable | NodeMissing | NodeFound(uid: string, write: NodeWrite)

  /** Everything the environment decides during one reconcile of a machine. */
  datatype MachineEnv = MachineEnv(
    gate: Gate,
    secret: Secret,
    reply: Reply<MachineStatus>,
    node: NodeLookup,
    patch: Patch)

  /** What the reconcile reads of the objects around the machine. */
  datatype Site = Site(
    hostname: string,
    controlPlane: bool,
    vip: VIPManager,
    allocationID: string,
    infrastructureReady: bool)

  datatype MachineEffect = MachineEffect(
    obj: Machine,
    call: Option<Call>,
    events: seq<Reason>,
    nodeProviderID: Option<string>,
    result: Result)

  function Quiet(m: Machine, result: Result): MachineEffect {
    MachineEffect(m, None, [], None, result)
  }

  // ---------- closures.go ----------

  function GetMachineID(m: Machine): string {
    Lookup(m.annotations, ServerID)
  }

  /** The host name of a machine, also the name of its workload node: dots and slashes become dashes. */
  function GetHostname(name: string): string {
    seq(|name|, i requires 0 <= i < |name| => if name[i] == '.' || name[i] == '/' then '-' else name[i])
  }

  function ProviderIDOf(id: string): string {
    "bmc://servers/" + id
  }

  /** One external address for every address, in order. */
  function ExternalAddresses(ips: seq<string>): seq<NodeAddress> {
    seq(|ips|, i requires 0 <= i < |ips| => NodeAddress(ExternalIP, ips[i]))
  }

  function WithStatus(m: Machine, s: BMCStatus): Machine {
    m.(status := m.status.(bmcStatus := s))
  }

  function Merged(m: Machine, s: MachineStatus): Machine {
    m.(status := s.(ready := m.status.ready,
                    addresses := m.status.addresses,
                    failureReason := m.status.failureReason,
                    failureMessage := m.status.failureMessage,
                    nodeRef := m.status.nodeRef))
  }

  function MadeReady(m: Machine): Machine {
    m.(status := m.status.(ready := true, addresses := ExternalAddresses(m.status.publicIPs)))
  }

  function MadeIrreconcilable(m: Machine, reason: FailureReason, message: FailureMessage): Machine {
    m.(status := m.status.(bmcStatus := Irreconcilable, failureReason := Some(reason), failureMessage := Some(message)))
  }

  // ---------- reconcileCreate ----------

  /** The IP blocks a create request names. */
  function BlocksFor(site: Site): seq<string> {
    if site.controlPlane && site.vip == NONE then [site.allocationID] else []
  }

  /** A server id was decoded from a 2xx reply to a create request. */
  function Adopted(m: Machine, s: MachineStatus): Machine {
    m.(status := s,
       providerID := Some(ProviderIDOf(s.bmcServerID)),
       annotations := if m.annotations.None? then None else Some(m.annotations.value[ServerID := s.bmcServerID]))
  }

  function Rejected(m: Machine, call: Call, code: int, requeue: Requeue): MachineEffect {
    if m.status.bmcStatus == Irreconcilable then
      MachineEffect(m, Some(call), [], None, Done(requeue))
    else
      MachineEffect(MadeIrreconcilable(m, InvalidConfiguration, CreateCode(code)),
                    Some(call), [CreateErrorPermanent], None, Done(requeue))
  }

  function CreateEffect(m: Machine, site: Site, env: MachineEnv): MachineEffect {
    if env.secret != Available then
      Quiet(m, Failed(NoRequeue))
    else if site.controlPlane && site.vip == NONE && site.allocationID == "" then
      Quiet(m, Done(NoRequeue))
    else
      CreateReplyEffect(m, PostServer(BlocksFor(site)), env.reply)
  }

  function CreateReplyEffect(m: Machine, call: Call, reply: Reply<MachineStatus>): MachineEffect {
    match reply
    case TransportError => MachineEffect(m, Some(call), [CreateError], None, Failed(NoRequeue))
    case BodyUnreadable => MachineEffect(m, Some(call), [CreateError], None, Failed(NoRequeue))
    case Response(code, body) =>
      if code == 400 || code == 401 || code == 403 then
        Rejected(m, call, code, NoRequeue)
      else if code == 406 then
        MachineEffect(m, Some(call), [CreateErrorInventory], None, Done(After5Min))
      else if code == 409 then
        Rejected(m, call, code, After2Min)
      else if code == 500 then
        MachineEffect(m, Some(call), [CreateFailure], None, Done(After2Min))
      else if !Success(code) || body.None? then
        MachineEffect(m, Some(call), [CreateError], None, Failed(NoRequeue))
      else
        MachineEffect(Adopted(m, body.value), Some(call), [Created], None,
                      if m.annotations.None? then Panicked else Done(After1Min))
  }

  // ---------- reconcileSynchronize ----------

  /** Records a status and emits an event, unless the status is already recorded. */
  function Noted(m: Machine, call: Call, s: BMCStatus, reason: Reason, result: Result): MachineEffect {
    if m.status.bmcStatus == s then
      MachineEffect(m, Some(call), [], None, result)
    else
      MachineEffect(WithStatus(m, s), Some(call), [reason], None, result)
  }

  function Refused(m: Machine, call: Call, code: int): MachineEffect {
    if m.status.bmcStatus == Irreconcilable then
      MachineEffect(m, Some(call), [], None, Done(After5Min))
    else
      MachineEffect(MadeIrreconcilable(m, InvalidConfiguration, ReadCode(code)),
                    Some(call), [PollFailure], None, Done(After5Min))
  }

  /** The machine after a poll whose status differs from the recorded one. */
  function Updated(m: Machine, s: MachineStatus): Machine {
    match s.bmcStatus
    case PoweredOn => MadeReady(Merged(m, s))
    case Error => MadeIrreconcilable(Merged(m, s), CreateMachineError, Unrecoverable)
    case _ => Merged(m, s)
  }

  datatype Binding = Binding(obj: Machine, events: seq<Reason>, written: Option<string>, panicked: bool)

  /** SetNodeRef: binds the workload node once and copies the provider id to it. */
  function Bound(m: Machine, hostname: string, node: NodeLookup): Binding {
    if m.status.nodeRef.Some? then
      Binding(m, [], None, false)
    else match node
      case RemoteUnavailable => Binding(m, [FailureNodeRef], None, false)
      case NodeMissing => Binding(m, [FailureNodeRef], None, false)
      case NodeFound(uid, write) =>
        var m1 := m.(status := m.status.(nodeRef := Some(NodeRef(hostname, uid))));
        if write == HelperFailed then
          Binding(m1, [SuccessNodeRef, FailureNodeRef], None, false)
        else if m.providerID.None? then
          Binding(m1, [SuccessNodeRef], None, true)
        else if write == PatchFailed then
          Binding(m1, [SuccessNodeRef, FailureNodeRef], None, false)
        else
          Binding(m1, [SuccessNodeRef], m.providerID, false)
  }

  function PolledEffect(m: Machine, call: Call, hostname: string, s: MachineStatus, node: NodeLookup): MachineEffect {
    var delta := m.status.bmcStatus != s.bmcStatus;
    var m1 := if delta then Updated(m, s) else m;
    var events := if delta then [StatusChange] else [];
    match s.bmcStatus
    case PoweredOn =>
      var b := Bound(m1, hostname, node);
      if b.panicked then
        MachineEffect(b.obj, Some(call), events + b.events, None, Panicked)
      else
        MachineEffect(if b.obj.status.ready then b.obj else MadeReady(Merged(b.obj, s)),
                      Some(call), events + b.events, b.written, Done(After2Min))
    case Error => MachineEffect(m1, Some(call), events, None, Done(NoRequeue))
    case _ => MachineEffect(m1, Some(call), events, None, Done(After1Min))
  }

  function SyncEffect(m: Machine, hostname: string, reply: Reply<MachineStatus>, node: NodeLookup): MachineEffect {
    var call := GetServer(GetMachineID(m));
    match reply
    case TransportError => Noted(m, call, Stale, StatusChange, Failed(After2Min))
    case BodyUnreadable => Noted(m, call, Stale, StatusChange, Failed(After2Min))
    case Response(code, body) =>
      if code == 400 || code == 401 then
        Refused(m, call, code)
      else if code == 403 then
        Noted(m, call, Orphaned, ResourceOrphaned, Done(NoRequeue))
      else if code == 500 then
        Noted(m, call, Stale, PollFailure, Done(After5Min))
      else if !Success(code) then
        MachineEffect(m, Some(call), [PollFailure], None, Failed(NoRequeue))
      else if body.None? then
        Noted(m, call, Stale, PollFailure, Failed(After2Min))
      else
        PolledEffect(m, call, hostname, body.value, node)
  }

  // ---------- reconcileDelete ----------

  function DeleteEffect(m: Machine, reply: Reply<MachineStatus>): MachineEffect {
    var m1 := m.(finalizers := m.finalizers - {MachineFinalizer});
    var id := GetMachineID(m);
    if m.status.bmcStatus == Orphaned || id == "" then
      Quiet(m1, Done(NoRequeue))
    else
      var call := Deprovision(id);
      match reply
      case TransportError => MachineEffect(m1, Some(call), [CleanupError], None, Failed(NoRequeue))
      case BodyUnreadable => MachineEffect(m1, Some(call), [CleanupError], None, Failed(NoRequeue))
      case Response(code, _) =>
        if code == 400 || code == 401 then
          MachineEffect(WithStatus(m1, Irreconcilable), Some(call), [], None, Done(After2Min))
        else if code == 403 then
          MachineEffect(WithStatus(m1, Orphaned), Some(call), [], None, Done(After2Min))
        else if code == 500 then
          MachineEffect(m1, Some(call), [], None, Done(After2Min))
        else if Success(code) then
          MachineEffect(m1, Some(call), [CleanupSuccess], None, Done(NoRequeue))
        else
          MachineEffect(m1, Some(call), [CleanupError], None, Failed(After2Min))
  }

  // ---------- Reconcile ----------

  function LiveEffect(m: Machine, site: Site, env: MachineEnv): MachineEffect {
    var m1 := m.(finalizers := m.finalizers + {MachineFinalizer});
    if !site.infrastructureReady || env.secret == NameMissing then
      Quiet(m1, Done(NoRequeue))
    else if GetMachineID(m1) == "" then
      CreateEffect(m1, site, env)
    else
      SyncEffect(m1, site.hostname, env.reply, env.node)
  }

  function ReconcileEffect(m: Machine, site: Site, env: MachineEnv): MachineEffect {
    if env.gate == OwnerLookupFailed then
      Quiet(m, Failed(NoRequeue))
    else if env.gate == OwnerMissing then
      Quiet(m, Done(NoRequeue))
    else if m.deleting then
      DeleteEffect(m, env.reply)
    else if env.gate == ClusterLookupFailed then
      Quiet(m, Failed(NoRequeue))
    else if env.gate == InfrastructureRefMissing then
      Quiet(m, Panicked)
    else if env.gate != Open then
      Quiet(m, Done(NoRequeue))
    else
      LiveEffect(m, site, env)
  }

  /** The stored object after the deferred patch: metadata and spec travel together, status on its own. */
  function Persisted(stored: Machine, m: Machine, patch: Patch): Machine {
    var meta := if patch.meta then m else stored;
    Machine(meta.finalizers, meta.annotations, stored.deleting, meta.providerID,
            if patch.status then m.status else stored.status)
  }
}
