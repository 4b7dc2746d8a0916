/**
 The Kubernetes objects of the provider (api/v1beta1) and what one reconcile can observe.

 Go strings that only ever serve as tokens (statuses, annotation keys, finalizers) are
 enumerations with one constructor for every token the controllers name and one
 constructor for all remaining texts.
 */
module Api {
  import opened Wrappers

  datatype BMCStatus =
    | Irreconcilable
    | Orphaned
    | Stale
    | PoweredOn
    | Error
    | Assigned
    | NotAssigned
    | OtherStatus(text: string)

  datatype Finalizer = MachineFinalizer | ClusterFinalizer | ForeignFinalizer(name: string)

  datatype Annotation = ServerID | IPAllocationID | ClusterIP | ForeignAnnotation(name: string)

  datatype AddressType = ExternalIP | OtherAddressType(name: string)

  datatype NodeAddress = NodeAddress(kind: AddressType, address: string)

  datatype FailureReason = InvalidConfiguration | CreateMachineError | OtherReason(text: string)

  datatype FailureMessage = CreateCode(code: int) | ReadCode(code: int) | Unrecoverable | OtherMessage(text: string)

  datatype NodeRef = NodeRef(name: string, uid: string)

  /** BMCMachineStatus: the server as BMC describes it, then the Cluster API fields. */
  datatype MachineStatus = MachineStatus(
    bmcServerID: string,
    bmcStatus: BMCStatus,
    cpu: string,
    cpuCount: int,
    cpuCores: int,
    cpuFrequency: string,
    ram: string,
    storage: string,
    privateIPs: seq<string>,
    publicIPs: seq<string>,
    ready: bool,
    addresses: seq<NodeAddress>,
    failureReason: Option<FailureReason>,
    failureMessage: Option<FailureMessage>,
    nodeRef: Option<NodeRef>)

  const EMPTY_MACHINE_STATUS := MachineStatus("", OtherStatus(""), "", 0, 0, "", "", "", [], [], false, [], None, None, None)

  /** The part of a BMCMachine the controllers read or write. `annotations` is None for a nil map. */
  datatype Machine = Machine(
    finalizers: set<Finalizer>,
    annotations: Option<map<Annotation, string>>,
    deleting: bool,
    providerID: Option<string>,
    status: MachineStatus)

  datatype VIPManager = NONE | KUBEVIP | OtherVIPManager(name: string)

  datatype Endpoint = Endpoint(host: string, port: int)

  /** BMCClusterStatus: the IP block as BMC describes it, then the Cluster API fields. */
  datatype ClusterStatus = ClusterStatus(
    id: string,
    cidr: string,
    bmcStatus: BMCStatus,
    ready: bool,
    errorMessage: Option<string>)

  const EMPTY_CLUSTER_STATUS := ClusterStatus("", "", OtherStatus(""), false, None)

  datatype Cluster = Cluster(
    finalizers: set<Finalizer>,
    annotations: Option<map<Annotation, string>>,
    deleting: bool,
    vip: VIPManager,
    endpoint: Endpoint,
    status: ClusterStatus)

  /** What came back from one HTTP call; `body` is None when the JSON does not decode. */
  datatype Reply<+T> = TransportError | BodyUnreadable | Response(code: int, body: Option<T>)

  predicate Success(code: int) {
    code == 200 || code == 201 || code == 202 || code == 204
  }

  /** A call that was answered 2xx, whatever its body. */
  predicate Accepted<T>(reply: Reply<T>) {
    reply.Response? && Success(reply.code)
  }

  /** A call that was answered 2xx with a body that decodes. */
  predicate Delivered<T>(reply: Reply<T>) {
    Accepted(reply) && reply.body.Some?
  }

  /** The outcomes of a poll that say nothing about the resource itself. */
  predicate Outage<T>(reply: Reply<T>) {
    match reply
    case TransportError => true
    case BodyUnreadable => true
    case Response(code, body) => code == 500 || (Success(code) && body.None?)
  }

  /** The answer carries one of these codes. */
  predicate Answered<T>(reply: Reply<T>, codes: set<int>) {
    reply.Response? && reply.code in codes
  }

  /** The status a poll that delivers nothing is to leave recorded, if it says anything about the resource. */
  function Verdict<T>(reply: Reply<T>): Option<BMCStatus> {
    if Outage(reply) then Some(Stale)
    else if Answered(reply, {403}) then Some(Orphaned)
    else if Answered(reply, {400, 401}) then Some(Irreconcilable)
    else None
  }

  /** Calls to the BMC API; at most one is made by any single reconcile. */
  datatype Call =
    | PostServer(blocks: seq<string>)
    | GetServer(id: string)
    | Deprovision(id: string)
    | PostBlock
    | GetBlock(id: string)
    | DeleteBlock(id: string)

  datatype Reason =
    | CleanupError
    | CleanupSuccess
    | Created
    | CreateError
    | CreateErrorPermanent
    | CreateErrorInventory
    | CreateFailure
    | ResourceOrphaned
    | PollFailure
    | StatusChange
    | FailureNodeRef
    | SuccessNodeRef
    | ClusterDeleted

  datatype Requeue = NoRequeue | After1Min | After2Min | After5Min

  /** How a reconcile returned: without an error, with one, or by a run-time panic. */
  datatype Result = Done(requeue: Requeue) | Failed(requeue: Requeue) | Panicked

  /** Whether the two requests of the deferred patch reached the API server. */
  datatype Patch = Patch(meta: bool, status: bool)

  /** Lookups a map that may be nil, as Go does: nil and absent keys both read as "". */
  function Lookup(annotations: Option<map<Annotation, string>>, key: Annotation): string {
    match annotations
    case None => ""
    case Some(a) => if key in a then a[key] else ""
  }
}
