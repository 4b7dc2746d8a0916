/**
 The two controllers as one transition system: any number of BMCMachine and BMCCluster
 objects, the BMC cloud behind the API, the workload nodes, and an environment that
 chooses every outcome. A run is a sequence of labels; each label carries the choices of
 the environment, so a state is determined by the labels that led to it.
 */
module TransitionSystem {
  import opened Wrappers
  import opened Api
  import M = MachineModel
  import C = ClusterModel

  type Key = string

  /** What of a machine's surroundings never changes: its cluster, the name of its Machine and its role. */
  datatype Placement = Placement(cluster: Key, name: string, controlPlane: bool) {
    /** The workload node the machine is looked up as. */
    function Node(): (Key, string) {
      (cluster, M.GetHostname(name))
    }
  }

  datatype MachineSlot = MachineSlot(place: Placement, obj: Machine, gone: bool)

  datatype ClusterSlot = ClusterSlot(obj: Cluster, gone: bool)

  /** A server or an IP block in the cloud. */
  datatype Asset = Asset(owner: Key, released: bool)

  /** Why a server is neither recorded any more nor deprovisioned. */
  datatype ServerLoss =
    | ReplyLost
    | ReplyUndecodable
    | EmptyServerID
    | NilAnnotationMap
    | MetadataPatchLost
    | DeprovisionFailed
    | SkippedAsOrphaned

  /** Why an IP block is neither recorded any more nor deleted. */
  datatype BlockLoss =
    | BlockReplyLost
    | BlockReplyUndecodable
    | EmptyBlockID
    | BlockNilAnnotationMap
    | BlockMetadataPatchLost
    | OverwrittenByLaterBlock
    | DeleteNotConfirmed
    | LeftBecauseNotUnassigned

  datatype Entry =
    | MachineCall(machine: Key, call: Call, serverReply: Reply<MachineStatus>)
    | ClusterCall(cluster: Key, call: Call, blockReply: Reply<ClusterStatus>)

  datatype World = World(
    machines: map<Key, MachineSlot>,
    clusters: map<Key, ClusterSlot>,
    infrastructureReady: set<Key>,
    servers: map<string, Asset>,
    lostServers: map<string, ServerLoss>,
    blocks: map<string, Asset>,
    lostBlocks: map<string, BlockLoss>,
    nodes: map<(Key, string), string>,
    log: seq<Entry>)

  const EMPTY_WORLD := World(map[], map[], {}, map[], map[], map[], map[], map[], [])

  /** `made` is the asset the cloud created in answer to a create call, whether or not the reply says so. */
  datatype Label =
    | ReconcileMachine(key: Key, menv: M.MachineEnv, made: Option<string>)
    | ReconcileCluster(key: Key, cenv: C.ClusterEnv, made: Option<string>)
    | RegisterMachine(key: Key, place: Placement, machine: Machine)
    | RegisterCluster(key: Key, cluster: Cluster)
    | MarkMachineDeleted(key: Key)
    | MarkClusterDeleted(key: Key)
    | EditMachineFinalizers(key: Key, foreign: set<Finalizer>)
    | EditClusterFinalizers(key: Key, foreign: set<Finalizer>)
    | SetInfrastructureReady(key: Key, value: bool)

  // ---------- evidence in the log ----------

  predicate Attempted(log: seq<Entry>, k: Key, id: string) {
    exists e :: e in log && e.MachineCall? && e.machine == k && e.call == Deprovision(id)
  }

  /** A 2xx poll of this server by this machine reported it powered on. */
  predicate PolledOn(log: seq<Entry>, k: Key, id: string) {
    exists e :: e in log && e.MachineCall? && e.machine == k && e.call == GetServer(id)
      && Delivered(e.serverReply) && e.serverReply.body.value.bmcStatus == PoweredOn
  }

  predicate DeleteSent(log: seq<Entry>, c: Key, id: string) {
    exists e :: e in log && e.ClusterCall? && e.cluster == c && e.call == DeleteBlock(id)
  }

  /** A create reply handed this cluster the block `id` whose second address is `ip`. */
  predicate Allocated(log: seq<Entry>, c: Key, id: string, ip: string) {
    exists e :: e in log && e.ClusterCall? && e.cluster == c && e.call == PostBlock
      && Delivered(e.blockReply) && e.blockReply.body.value.id == id
      && C.Ipv4.ControlPlaneText(e.blockReply.body.value.cidr) == Some(ip)
  }

  // ---------- the machine controller's step ----------

  predicate ClusterPresent(w: World, c: Key) {
    c in w.clusters && !w.clusters[c].gone
  }

  function SiteOf(w: World, k: Key): M.Site
    requires k in w.machines
  {
    var p := w.machines[k].place;
    if ClusterPresent(w, p.cluster) then
      var c := w.clusters[p.cluster].obj;
      M.Site(M.GetHostname(p.name), p.controlPlane, c.vip, C.GetIPAllocationID(c), p.cluster in w.infrastructureReady)
    else
      M.Site(M.GetHostname(p.name), p.controlPlane, NONE, "", false)
  }

  /** A BMCCluster that is not there is not there for the reconcile either. */
  function EnvSeen(w: World, k: Key, env: M.MachineEnv): M.MachineEnv
    requires k in w.machines
  {
    if !ClusterPresent(w, w.machines[k].place.cluster) && (env.gate == M.Paused || env.gate == M.Open) then
      env.(gate := M.BMCClusterMissing)
    else
      env
  }

  function MachineEffectIn(w: World, k: Key, env: M.MachineEnv): M.MachineEffect
    requires k in w.machines
  {
    M.ReconcileEffect(w.machines[k].obj, SiteOf(w, k), EnvSeen(w, k, env))
  }

  function CloudAfter<T>(assets: map<string, Asset>, k: Key, call: Option<Call>, reply: Reply<T>,
                         made: Option<string>): map<string, Asset> {
    match call
    case None => assets
    case Some(PostServer(_)) => if made.Some? then assets[made.value := Asset(k, false)] else assets
    case Some(PostBlock) => if made.Some? then assets[made.value := Asset(k, false)] else assets
    case Some(Deprovision(id)) => Release(assets, id, reply)
    case Some(DeleteBlock(id)) => Release(assets, id, reply)
    case _ => assets
  }

  function Release<T>(assets: map<string, Asset>, id: string, reply: Reply<T>): map<string, Asset> {
    if Accepted(reply) && id in assets then assets[id := assets[id].(released := true)] else assets
  }

  /** Why a server made by a create call is not recorded afterwards, if it is not. */
  function CreateLoss(m: Machine, reply: Reply<MachineStatus>, patch: Patch): Option<ServerLoss> {
    if !Accepted(reply) then Some(ReplyLost)
    else if reply.body.None? then Some(ReplyUndecodable)
    else if reply.body.value.bmcServerID == "" then Some(EmptyServerID)
    else if m.annotations.None? then Some(NilAnnotationMap)
    else if !patch.meta then Some(MetadataPatchLost)
    else None
  }

  function CreateLosses(m: Machine, call: Option<Call>, reply: Reply<MachineStatus>, patch: Patch,
                        made: Option<string>): map<string, ServerLoss> {
    if call.Some? && call.value.PostServer? && made.Some? && CreateLoss(m, reply, patch).Some? then
      map[made.value := CreateLoss(m, reply, patch).value]
    else
      map[]
  }

  /** What is lost when a stored machine disappears; charged only on evidence found in the log or the object. */
  function VanishLosses(servers: map<string, Asset>, log: seq<Entry>, k: Key, m: Machine): map<string, ServerLoss> {
    var id := M.GetMachineID(m);
    if id !in servers || servers[id].released then map[]
    else if Attempted(log, k, id) then map[id := DeprovisionFailed]
    else if m.status.bmcStatus == Orphaned then map[id := SkippedAsOrphaned]
    else map[]
  }

  predicate Vanishes(deleting: bool, finalizers: set<Finalizer>) {
    deleting && finalizers == {}
  }

  /** The API server stores an object and drops it once it is deleted and holds no finalizer. */
  function StoreMachine(w: World, k: Key, m: Machine): World
    requires k in w.machines
  {
    var gone := Vanishes(m.deleting, m.finalizers);
    w.(machines := w.machines[k := w.machines[k].(obj := m, gone := gone)],
       lostServers := if gone then w.lostServers + VanishLosses(w.servers, w.log, k, m) else w.lostServers)
  }

  /** The cloud, the nodes and the log after a machine's reconcile made its call and wrote its node. */
  function AfterServerCall(w: World, k: Key, call: Option<Call>, reply: Reply<MachineStatus>, patch: Patch,
                           made: Option<string>, nodeProviderID: Option<string>): World
    requires k in w.machines
  {
    var p := w.machines[k].place;
    w.(servers := CloudAfter(w.servers, k, call, reply, made),
       lostServers := w.lostServers + CreateLosses(w.machines[k].obj, call, reply, patch, made),
       nodes := if nodeProviderID.Some? then w.nodes[p.Node() := nodeProviderID.value] else w.nodes,
       log := if call.Some? then w.log + [MachineCall(k, call.value, reply)] else w.log)
  }

  function StepMachine(w: World, k: Key, env: M.MachineEnv, made: Option<string>): World
    requires k in w.machines && !w.machines[k].gone
  {
    var eff := MachineEffectIn(w, k, env);
    StoreMachine(AfterServerCall(w, k, eff.call, env.reply, env.patch, made, eff.nodeProviderID), k,
                 M.Persisted(w.machines[k].obj, eff.obj, env.patch))
  }

  // ---------- the cluster controller's step ----------

  function BlockCreateLoss(c: Cluster, reply: Reply<ClusterStatus>, patch: Patch): Option<BlockLoss> {
    if !Accepted(reply) then Some(BlockReplyLost)
    else if reply.body.None? then Some(BlockReplyUndecodable)
    else if reply.body.value.id == "" then Some(EmptyBlockID)
    else if c.annotations.None? then Some(BlockNilAnnotationMap)
    else if !patch.meta then Some(BlockMetadataPatchLost)
    else None
  }

  function BlockCreateLosses(c: Cluster, call: Option<Call>, reply: Reply<ClusterStatus>, patch: Patch,
                             made: Option<string>): map<string, BlockLoss> {
    if call == Some(PostBlock) && made.Some? && BlockCreateLoss(c, reply, patch).Some? then
      map[made.value := BlockCreateLoss(c, reply, patch).value]
    else
      map[]
  }

  /** A recorded block that a later successful allocation writes over. */
  function OverwriteLosses(c: Cluster, call: Option<Call>, reply: Reply<ClusterStatus>, patch: Patch): map<string,
                           BlockLoss> {
    var id := C.GetIPAllocationID(c);
    if call == Some(PostBlock) && id != "" && Delivered(reply) && c.annotations.Some? && patch.meta then
      map[id := OverwrittenByLaterBlock]
    else
      map[]
  }

  function VanishBlockLosses(blocks: map<string, Asset>, log: seq<Entry>, k: Key, c: Cluster): map<string, BlockLoss> {
    var id := C.GetIPAllocationID(c);
    if id !in blocks || blocks[id].released then map[]
    else if DeleteSent(log, k, id) then map[id := DeleteNotConfirmed]
    else if c.status.bmcStatus != NotAssigned then map[id := LeftBecauseNotUnassigned]
    else map[]
  }

  function StoreCluster(w: World, k: Key, c: Cluster): World
    requires k in w.clusters
  {
    var gone := Vanishes(c.deleting, c.finalizers);
    w.(clusters := w.clusters[k := ClusterSlot(c, gone)],
       lostBlocks := if gone then w.lostBlocks + VanishBlockLosses(w.blocks, w.log, k, c) else w.lostBlocks)
  }

  function AfterBlockCall(w: World, k: Key, call: Option<Call>, reply: Reply<ClusterStatus>, patch: Patch,
                          made: Option<string>): World
    requires k in w.clusters
  {
    var c := w.clusters[k].obj;
    w.(blocks := CloudAfter(w.blocks, k, call, reply, made),
       lostBlocks := w.lostBlocks + BlockCreateLosses(c, call, reply, patch, made) + OverwriteLosses(c, call, reply, patch),
       log := if call.Some? then w.log + [ClusterCall(k, call.value, reply)] else w.log)
  }

  function StepCluster(w: World, k: Key, env: C.ClusterEnv, made: Option<string>): World
    requires k in w.clusters && !w.clusters[k].gone
  {
    var eff := C.ReconcileEffect(w.clusters[k].obj, env);
    StoreCluster(AfterBlockCall(w, k, eff.call, env.reply, env.patch, made), k,
                 C.Persisted(w.clusters[k].obj, eff.obj, env.patch))
  }

  // ---------- one step, and what the environment may do ----------

  /** Finalizers after others changed theirs and left `own` as it was. */
  function Edited(finalizers: set<Finalizer>, own: Finalizer, foreign: set<Finalizer>): set<Finalizer> {
    finalizers * {own} + (foreign - {own})
  }

  predicate MachinePresent(w: World, k: Key) {
    k in w.machines && !w.machines[k].gone
  }

  function Step(w: World, l: Label): World {
    match l
    case ReconcileMachine(k, env, made) =>
      if MachinePresent(w, k) then StepMachine(w, k, env, made) else w
    case ReconcileCluster(k, env, made) =>
      if ClusterPresent(w, k) then StepCluster(w, k, env, made) else w
    case RegisterMachine(k, p, m) =>
      if k in w.machines then w else w.(machines := w.machines[k := MachineSlot(p, m, false)])
    case RegisterCluster(k, c) =>
      if k in w.clusters then w else w.(clusters := w.clusters[k := ClusterSlot(c, false)])
    case MarkMachineDeleted(k) =>
      if MachinePresent(w, k) then StoreMachine(w, k, w.machines[k].obj.(deleting := true)) else w
    case MarkClusterDeleted(k) =>
      if ClusterPresent(w, k) then StoreCluster(w, k, w.clusters[k].obj.(deleting := true)) else w
    case EditMachineFinalizers(k, fs) =>
      if MachinePresent(w, k) then
        var m := w.machines[k].obj;
        StoreMachine(w, k, m.(finalizers := Edited(m.finalizers, MachineFinalizer, fs)))
      else w
    case EditClusterFinalizers(k, fs) =>
      if ClusterPresent(w, k) then
        var c := w.clusters[k].obj;
        StoreCluster(w, k, c.(finalizers := Edited(c.finalizers, ClusterFinalizer, fs)))
      else w
    case SetInfrastructureReady(k, value) =>
      w.(infrastructureReady := if value then w.infrastructureReady + {k} else w.infrastructureReady - {k})
  }

  /** A machine as it is first created: no server recorded yet. Its annotation map may be nil. */
  predicate PristineMachine(m: Machine) {
    M.GetMachineID(m) == "" && m.providerID == None && m.status == EMPTY_MACHINE_STATUS && !m.deleting
  }

  predicate PristineCluster(c: Cluster) {
    C.GetIPAllocationID(c) == "" && C.GetIP(c) == "" && c.status == EMPTY_CLUSTER_STATUS && !c.deleting
  }

  /** The cloud hands out fresh, non-empty ids, and a decoded 2xx create reply names what was created or nothing. */
  predicate HonestMade(assets: map<string, Asset>, made: Option<string>) {
    made.Some? ==> made.value != "" && made.value !in assets
  }

  predicate HonestServer(reply: Reply<MachineStatus>, made: Option<string>) {
    Delivered(reply) && reply.body.value.bmcServerID != "" ==> made == Some(reply.body.value.bmcServerID)
  }

  predicate HonestBlock(reply: Reply<ClusterStatus>, made: Option<string>) {
    Delivered(reply) && reply.body.value.id != "" ==> made == Some(reply.body.value.id)
  }

  predicate SendsServerCreate(w: World, k: Key, env: M.MachineEnv) {
    MachinePresent(w, k)
    && var call := MachineEffectIn(w, k, env).call;
       call.Some? && call.value.PostServer?
  }

  /** The API server of the workload cluster lets a node's provider id be set once and never be changed. */
  predicate NodeAccepts(w: World, k: Key, env: M.MachineEnv) {
    MachinePresent(w, k) ==>
      var written := MachineEffectIn(w, k, env).nodeProviderID;
      var n := w.machines[k].place.Node();
      written.Some? && n in w.nodes ==> w.nodes[n] == written.value
  }

  predicate SendsBlockCreate(w: World, k: Key, env: C.ClusterEnv) {
    ClusterPresent(w, k) && C.ReconcileEffect(w.clusters[k].obj, env).call == Some(PostBlock)
  }

  predicate Allowed(w: World, l: Label) {
    match l
    case ReconcileMachine(k, env, made) =>
      && (SendsServerCreate(w, k, env) ==> HonestMade(w.servers, made) && HonestServer(env.reply, made))
      && NodeAccepts(w, k, env)
    case ReconcileCluster(k, env, made) =>
      SendsBlockCreate(w, k, env) ==> HonestMade(w.blocks, made) && HonestBlock(env.reply, made)
    case RegisterMachine(_, _, m) => PristineMachine(m)
    case RegisterCluster(_, c) => PristineCluster(c)
    case SetInfrastructureReady(k, value) =>
      value ==> ClusterPresent(w, k) && w.clusters[k].obj.status.ready
    case _ => true
  }

  /** The step stores the status of a machine as its create reply spells it. */
  predicate Overwrites(w: World, l: Label) {
    l.ReconcileMachine? && SendsServerCreate(w, l.key, l.menv) && Delivered(l.menv.reply) && l.menv.patch.status
  }

  /** No create reply that is stored claims to be ready. */
  predicate Clean(w: World, l: Label) {
    Overwrites(w, l) ==> !l.menv.reply.body.value.ready
  }

  function Run(w: World, labels: seq<Label>): World
    decreases |labels|
  {
    if labels == [] then w else Run(Step(w, labels[0]), labels[1..])
  }

  predicate ValidRun(w: World, labels: seq<Label>)
    decreases |labels|
  {
    labels == [] || (Allowed(w, labels[0]) && ValidRun(Step(w, labels[0]), labels[1..]))
  }

  /** Every step of the run that is about k is good where it is taken; the others may be anything. */
  predicate Throughout(w: World, labels: seq<Label>, k: Key, good: (World, Label) -> bool)
    decreases |labels|
  {
    labels == [] || ((labels[0].key == k ==> good(w, labels[0])) && Throughout(Step(w, labels[0]), labels[1..], k, good))
  }

  /** Every state of the run satisfies the predicate. */
  predicate Always(w: World, labels: seq<Label>, holds: World -> bool)
    decreases |labels|
  {
    holds(w) && (labels == [] || Always(Step(w, labels[0]), labels[1..], holds))
  }

  /** A run of two parts is the second part from where the first one ends. */
  lemma {:induction false} RunSplits(w: World, xs: seq<Label>, ys: seq<Label>)
    ensures Run(w, xs + ys) == Run(Run(w, xs), ys)
    ensures ValidRun(w, xs + ys) <==> ValidRun(w, xs) && ValidRun(Run(w, xs), ys)
    decreases |xs|
  {
    if xs == [] {
      assert xs + ys == ys;
    } else {
      assert (xs + ys)[1..] == xs[1..] + ys;
      RunSplits(Step(w, xs[0]), xs[1..], ys);
    }
  }

  lemma {:induction false} ThroughoutSplits(w: World, xs: seq<Label>, ys: seq<Label>, k: Key,
                                            good: (World, Label) -> bool)
    ensures Throughout(w, xs + ys, k, good) <==> Throughout(w, xs, k, good) && Throughout(Run(w, xs), ys, k, good)
    decreases |xs|
  {
    if xs == [] {
      assert xs + ys == ys;
    } else {
      assert (xs + ys)[1..] == xs[1..] + ys;
      ThroughoutSplits(Step(w, xs[0]), xs[1..], ys, k, good);
    }
  }

  /**
   Where, under an invariant, a predicate is broken by exactly the steps of k that are not good,
   the runs that keep it are exactly those in which every step of k is good.
   */
  lemma {:induction false} AlwaysIffThroughout(w: World, labels: seq<Label>, k: Key, inv: World -> bool,
                                               holds: World -> bool, good: (World, Label) -> bool)
    requires forall v, l :: inv(v) && Allowed(v, l) ==> inv(Step(v, l))
    requires forall v, l :: inv(v) && holds(v) && Allowed(v, l) ==> (holds(Step(v, l)) <==> (l.key == k ==> good(v, l)))
    requires inv(w) && holds(w) && ValidRun(w, labels)
    ensures Always(w, labels, holds) <==> Throughout(w, labels, k, good)
    ensures Throughout(w, labels, k, good) ==> holds(Run(w, labels))
    decreases |labels|
  {
    if labels != [] {
      assert holds(Step(w, labels[0])) <==> (labels[0].key == k ==> good(w, labels[0]));
      if holds(Step(w, labels[0])) {
        AlwaysIffThroughout(Step(w, labels[0]), labels[1..], k, inv, holds, good);
      }
    }
  }

  lemma {:induction false} ThroughoutWeakens(w: World, labels: seq<Label>, k: Key, strong: (World, Label) -> bool,
                                             weak: (World, Label) -> bool)
    requires forall v, l :: strong(v, l) ==> weak(v, l)
    requires Throughout(w, labels, k, strong)
    ensures Throughout(w, labels, k, weak)
    decreases |labels|
  {
    if labels != [] {
      ThroughoutWeakens(Step(w, labels[0]), labels[1..], k, strong, weak);
    }
  }

  lemma RunOne(w: World, l: Label)
    ensures Run(w, [l]) == Step(w, l)
    ensures ValidRun(w, [l]) <==> Allowed(w, l)
  {
    assert [l][1..] == [];
  }

  lemma ThroughoutOne(w: World, l: Label, k: Key, good: (World, Label) -> bool)
    ensures Throughout(w, [l], k, good) <==> (l.key == k ==> good(w, l))
  {
    assert [l][1..] == [];
  }

  lemma TwoSteps(w: World, a: Label, b: Label)
    ensures Run(w, [a] + [b]) == Step(Step(w, a), b)
    ensures ValidRun(w, [a] + [b]) <==> Allowed(w, a) && Allowed(Step(w, a), b)
  {
    RunSplits(w, [a], [b]);
    RunOne(w, a);
    RunOne(Step(w, a), b);
  }

  lemma FourSteps(w: World, a: Label, b: Label, c: Label, d: Label)
    ensures var run := ([a] + [b]) + ([c] + [d]);
            var w2 := Step(Step(w, a), b);
            && Run(w, run) == Step(Step(w2, c), d)
            && (ValidRun(w, run) <==> Allowed(w, a) && Allowed(Step(w, a), b) && Allowed(w2, c) && Allowed(Step(w2, c), d))
  {
    RunSplits(w, [a] + [b], [c] + [d]);
    TwoSteps(w, a, b);
    TwoSteps(Step(Step(w, a), b), c, d);
  }

  lemma TwoStepsThroughout(w: World, a: Label, b: Label, k: Key, good: (World, Label) -> bool)
    ensures Throughout(w, [a] + [b], k, good) <==> (a.key == k ==> good(w, a)) && (b.key == k ==> good(Step(w, a), b))
  {
    ThroughoutSplits(w, [a], [b], k, good);
    RunOne(w, a);
    ThroughoutOne(w, a, k, good);
    ThroughoutOne(Step(w, a), b, k, good);
  }

  /** If every one of four steps is good, the run of them is, whichever object one looks at. */
  lemma FourStepsThroughout(w: World, a: Label, b: Label, c: Label, d: Label, k: Key, good: (World, Label) -> bool)
    requires var w2 := Step(Step(w, a), b);
             good(w, a) && good(Step(w, a), b) && good(w2, c) && good(Step(w2, c), d)
    ensures Throughout(w, ([a] + [b]) + ([c] + [d]), k, good)
  {
    ThroughoutSplits(w, [a] + [b], [c] + [d], k, good);
    TwoSteps(w, a, b);
    TwoStepsThroughout(w, a, b, k, good);
    TwoStepsThroughout(Step(Step(w, a), b), c, d, k, good);
  }
}
