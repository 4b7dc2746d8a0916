/**
 The invariant of every run about machines and servers: identity, ownership, finalizer
 evidence, and the account of every server the cloud ever created.
 */
module ServerInvariant {
  import opened Wrappers
  import opened Api
  import opened TransitionSystem
  import M = MachineModel
  import C = ClusterModel
  import F = MachineFacts

  /** Identity, ownership and finalizer evidence of one stored (or vanished) machine. */
  predicate MachineOK(servers: map<string, Asset>, log: seq<Entry>, k: Key, slot: MachineSlot) {
    var m := slot.obj;
    var id := M.GetMachineID(m);
    && (slot.gone <==> Vanishes(m.deleting, m.finalizers))
    && (id != "" ==>
          && id in servers && servers[id].owner == k
          && m.providerID == Some(M.ProviderIDOf(id))
          && (MachineFinalizer !in m.finalizers ==>
                m.deleting && (Attempted(log, k, id) || m.status.bmcStatus == Orphaned)))
  }

  predicate Held(w: World, s: string)
    requires s in w.servers && w.servers[s].owner in w.machines
  {
    var slot := w.machines[w.servers[s].owner];
    !slot.gone && M.GetMachineID(slot.obj) == s
  }

  /** The server was lost while it was being created, not when its machine went away. */
  predicate CreateFault(loss: ServerLoss) {
    loss != DeprovisionFailed && loss != SkippedAsOrphaned
  }

  /** A server is lost exactly when it is neither released nor recorded by its stored owner. */
  predicate ServerOK(w: World, s: string)
    requires s in w.servers
  {
    var a := w.servers[s];
    && s != ""
    && a.owner in w.machines
    && (a.released ==> w.machines[a.owner].obj.deleting && M.GetMachineID(w.machines[a.owner].obj) == s)
    && (s in w.lostServers <==> !a.released && !Held(w, s))
    && (s in w.lostServers ==> (CreateFault(w.lostServers[s]) <==> M.GetMachineID(w.machines[a.owner].obj) != s))
  }

  predicate EntryOK(servers: map<string, Asset>, e: Entry) {
    e.MachineCall? && (e.call.GetServer? || e.call.Deprovision?) ==>
      e.call.id in servers && servers[e.call.id].owner == e.machine
  }

  predicate ServersInv(w: World) {
    && (forall k :: k in w.machines ==> MachineOK(w.servers, w.log, k, w.machines[k]))
    && (forall s :: s in w.servers ==> ServerOK(w, s))
    && (forall s :: s in w.lostServers ==> s in w.servers)
    && (forall e :: e in w.log ==> EntryOK(w.servers, e))
  }

  /** Servers are never forgotten and never change owner. */
  predicate AssetsGrow(a: map<string, Asset>, b: map<string, Asset>) {
    forall s :: s in a ==> s in b && b[s].owner == a[s].owner
  }

  lemma EvidenceGrows(log: seq<Entry>, more: seq<Entry>, k: Key, id: string)
    ensures Attempted(log, k, id) ==> Attempted(log + more, k, id)
    ensures PolledOn(log, k, id) ==> PolledOn(log + more, k, id)
    ensures DeleteSent(log, k, id) ==> DeleteSent(log + more, k, id)
  {
    assert forall e :: e in log ==> e in log + more;
  }

  /** A machine's facts survive whatever happens to other machines and to the cloud. */
  lemma MachineFramed(servers: map<string, Asset>, servers': map<string, Asset>, log: seq<Entry>, more: seq<Entry>,
                      k: Key, slot: MachineSlot)
    requires MachineOK(servers, log, k, slot) && AssetsGrow(servers, servers')
    ensures MachineOK(servers', log + more, k, slot)
  {
    EvidenceGrows(log, more, k, M.GetMachineID(slot.obj));
  }

  /** The account of a server does not change when its owner is stored with the same identity. */
  lemma StoringKeepsServer(w: World, k: Key, m: Machine, s: string)
    requires MachinePresent(w, k) && s in w.servers && ServerOK(w, s)
    requires M.GetMachineID(m) == M.GetMachineID(w.machines[k].obj)
    requires w.machines[k].obj.deleting ==> m.deleting
    requires MachineOK(w.servers, w.log, k, StoreMachine(w, k, m).machines[k])
    ensures ServerOK(StoreMachine(w, k, m), s)
  {
    if w.servers[s].owner != k {
      assert s != M.GetMachineID(m);
    }
  }

  /** Storing a machine with the same identity keeps the invariant, provided its own facts hold. */
  lemma StoringKeepsInv(w: World, k: Key, m: Machine)
    requires ServersInv(w) && MachinePresent(w, k)
    requires M.GetMachineID(m) == M.GetMachineID(w.machines[k].obj)
    requires w.machines[k].obj.deleting ==> m.deleting
    requires MachineOK(w.servers, w.log, k, StoreMachine(w, k, m).machines[k])
    ensures ServersInv(StoreMachine(w, k, m))
  {
    forall s | s in w.servers
      ensures ServerOK(StoreMachine(w, k, m), s)
    {
      StoringKeepsServer(w, k, m, s);
    }
  }

  // ---------- one reconcile of a machine ----------

  /** The outside of a reconcile: what it sent, what came of it, and what is stored afterwards. */
  datatype Move = Move(
    call: Option<Call>,
    reply: Reply<MachineStatus>,
    patch: Patch,
    made: Option<string>,
    node: Option<string>,
    stored: Machine)

  function MoveOf(w: World, k: Key, env: M.MachineEnv, made: Option<string>): Move
    requires k in w.machines
  {
    var eff := MachineEffectIn(w, k, env);
    Move(eff.call, env.reply, env.patch, made, eff.nodeProviderID, M.Persisted(w.machines[k].obj, eff.obj, env.patch))
  }

  function Called(w: World, k: Key, v: Move): World
    requires k in w.machines
  {
    AfterServerCall(w, k, v.call, v.reply, v.patch, v.made, v.node)
  }

  function Moved(w: World, k: Key, v: Move): World
    requires k in w.machines
  {
    StoreMachine(Called(w, k, v), k, v.stored)
  }

  /** The call of a move names the recorded server, or creates one where none is recorded. */
  predicate LawfulCall(servers: map<string, Asset>, m: Machine, v: Move) {
    v.call.Some? ==>
      match v.call.value
      case PostServer(_) => M.GetMachineID(m) == "" && !m.deleting && HonestMade(servers, v.made) && HonestServer(v.reply, v.made)
      case GetServer(i) => i == M.GetMachineID(m) != ""
      case Deprovision(i) => i == M.GetMachineID(m) != "" && m.deleting
      case _ => false
  }

  /** What a move leaves stored. */
  predicate LawfulStore(m: Machine, v: Move) {
    var id, id' := M.GetMachineID(m), M.GetMachineID(v.stored);
    && v.stored.deleting == m.deleting
    && id' == (if id == "" && v.call.Some? && Delivered(v.reply) && m.annotations.Some? && v.patch.meta
               then v.reply.body.value.bmcServerID else id)
    && (id' != "" ==> v.stored.providerID == Some(M.ProviderIDOf(id')))
    && (id' != "" && MachineFinalizer !in v.stored.finalizers ==>
          && m.deleting
          && (|| (MachineFinalizer !in m.finalizers && (m.status.bmcStatus == Orphaned ==> v.stored.status.bmcStatus == Orphaned))
              || v.call == Some(Deprovision(id))
              || v.stored.status.bmcStatus == Orphaned))
  }

  predicate Lawful(w: World, k: Key, v: Move) {
    MachinePresent(w, k) && LawfulCall(w.servers, w.machines[k].obj, v) && LawfulStore(w.machines[k].obj, v)
  }

  lemma ReconcileIsLawful(w: World, k: Key, env: M.MachineEnv, made: Option<string>)
    requires ServersInv(w) && MachinePresent(w, k) && Allowed(w, ReconcileMachine(k, env, made))
    ensures Lawful(w, k, MoveOf(w, k, env, made))
  {
    var m := w.machines[k].obj;
    var site, seen := SiteOf(w, k), EnvSeen(w, k, env);
    var eff := M.ReconcileEffect(m, site, seen);
    assert MachineOK(w.servers, w.log, k, w.machines[k]);
    F.FinalizerMoves(m, site, seen);
    if eff.call.Some? {
      F.CallsNameTheRecordedServer(m, site, seen);
    }
    if M.GetMachineID(m) == "" {
      F.IdentityComesFromCreateReply(m, site, seen);
    } else {
      F.RecordedIdentityIsKept(m, site, seen);
    }
  }

  lemma StoredMachineOK(w: World, k: Key, v: Move)
    requires Lawful(w, k, v) && MachineOK(w.servers, w.log, k, w.machines[k])
    ensures var w' := Moved(w, k, v);
            MachineOK(w'.servers, w'.log, k, w'.machines[k])
  {
    var w' := Moved(w, k, v);
    if v.call.Some? {
      var e := MachineCall(k, v.call.value, v.reply);
      EvidenceGrows(w.log, [e], k, M.GetMachineID(v.stored));
      assert e in w'.log;
    }
  }

  lemma OtherMachineOK(w: World, k: Key, v: Move, k': Key)
    requires Lawful(w, k, v) && MachineOK(w.servers, w.log, k, w.machines[k])
    requires k' in w.machines && k' != k && MachineOK(w.servers, w.log, k', w.machines[k'])
    ensures var w' := Moved(w, k, v);
            MachineOK(w'.servers, w'.log, k', w'.machines[k'])
  {
    var w' := Moved(w, k, v);
    if v.call.Some? {
      MachineFramed(w.servers, w'.servers, w.log, [MachineCall(k, v.call.value, v.reply)], k', w.machines[k']);
    }
  }

  lemma LawfulKeepsMachines(w: World, k: Key, v: Move, k': Key)
    requires ServersInv(w) && Lawful(w, k, v) && k' in w.machines
    ensures var w' := Moved(w, k, v);
            MachineOK(w'.servers, w'.log, k', w'.machines[k'])
  {
    assert MachineOK(w.servers, w.log, k', w.machines[k']) && MachineOK(w.servers, w.log, k, w.machines[k]);
    if k' == k {
      StoredMachineOK(w, k, v);
    } else {
      OtherMachineOK(w, k, v, k');
    }
  }

  /** The calls of a move leave the account of every older server as it was, apart from a deprovision that worked. */
  lemma CallKeepsOldAccounts(w: World, k: Key, v: Move, s: string)
    requires Lawful(w, k, v) && s in w.servers
    ensures var w1 := Called(w, k, v);
            && s in w1.servers
            && w1.servers[s] ==
                 (if v.call == Some(Deprovision(s)) && Accepted(v.reply) then w.servers[s].(released := true) else w.servers[s])
            && (s in w1.lostServers <==> s in w.lostServers)
            && (s in w.lostServers ==> w1.lostServers[s] == w.lostServers[s])
  {
  }

  /** A server that existed before is still held, released, or already charged. */
  lemma OldServersKeepTheirAccount(w: World, k: Key, v: Move, s: string)
    requires Lawful(w, k, v) && s in w.servers && ServerOK(w, s)
    requires MachineOK(w.servers, w.log, k, w.machines[k])
    requires MachineOK(Called(w, k, v).servers, Called(w, k, v).log, k, Moved(w, k, v).machines[k])
    ensures ServerOK(Moved(w, k, v), s)
  {
    CallKeepsOldAccounts(w, k, v, s);
    var id, id' := M.GetMachineID(w.machines[k].obj), M.GetMachineID(v.stored);
    if w.servers[s].owner == k {
      assert id == "" ==> id' != s;
    } else {
      assert s != id && s != id';
    }
  }

  /** A server just created is recorded, or charged to the fault that kept it from being recorded. */
  lemma NewServerIsAccounted(w: World, k: Key, v: Move)
    requires Lawful(w, k, v) && v.call.Some? && v.call.value.PostServer? && v.made.Some?
    requires v.made.value !in w.lostServers
    ensures var w' := Moved(w, k, v);
            && v.made.value in w'.servers && ServerOK(w', v.made.value)
            && (Held(w', v.made.value) <==> CreateLoss(w.machines[k].obj, v.reply, v.patch).None?)
  {
    var m := w.machines[k].obj;
    assert !Moved(w, k, v).machines[k].gone;
    assert Moved(w, k, v).servers[v.made.value] == Asset(k, false);
    assert CreateLoss(m, v.reply, v.patch).None? <==> M.GetMachineID(v.stored) == v.made.value;
  }

  lemma LawfulKeepsServers(w: World, k: Key, v: Move)
    requires ServersInv(w) && Lawful(w, k, v)
    ensures forall s :: s in Moved(w, k, v).servers ==> ServerOK(Moved(w, k, v), s)
  {
    LawfulKeepsMachines(w, k, v, k);
    forall s | s in Moved(w, k, v).servers
      ensures ServerOK(Moved(w, k, v), s)
    {
      if s in w.servers {
        OldServersKeepTheirAccount(w, k, v, s);
      } else {
        NewServerIsAccounted(w, k, v);
      }
    }
  }

  lemma LawfulChargesKnownServers(w: World, k: Key, v: Move, s: string)
    requires Lawful(w, k, v) && MachineOK(w.servers, w.log, k, w.machines[k])
    requires s in Moved(w, k, v).lostServers && (s in w.lostServers ==> s in w.servers)
    ensures s in Moved(w, k, v).servers
  {
    assert Moved(w, k, v).servers == CloudAfter(w.servers, k, v.call, v.reply, v.made);
  }

  lemma LawfulKeepsEntry(w: World, k: Key, v: Move, e: Entry)
    requires Lawful(w, k, v) && MachineOK(w.servers, w.log, k, w.machines[k])
    requires e in Moved(w, k, v).log && (e in w.log ==> EntryOK(w.servers, e))
    ensures EntryOK(Moved(w, k, v).servers, e)
  {
    assert Moved(w, k, v).servers == CloudAfter(w.servers, k, v.call, v.reply, v.made);
  }

  lemma LawfulKeepsLedgers(w: World, k: Key, v: Move)
    requires ServersInv(w) && Lawful(w, k, v)
    ensures var w' := Moved(w, k, v);
            && (forall s :: s in w'.lostServers ==> s in w'.servers)
            && (forall e :: e in w'.log ==> EntryOK(w'.servers, e))
  {
    var w' := Moved(w, k, v);
    assert MachineOK(w.servers, w.log, k, w.machines[k]);
    forall s | s in w'.lostServers
      ensures s in w'.servers
    {
      LawfulChargesKnownServers(w, k, v, s);
    }
    forall e | e in w'.log
      ensures EntryOK(w'.servers, e)
    {
      LawfulKeepsEntry(w, k, v, e);
    }
  }

  lemma ReconcileKeepsServersInv(w: World, k: Key, env: M.MachineEnv, made: Option<string>)
    requires ServersInv(w) && MachinePresent(w, k) && Allowed(w, ReconcileMachine(k, env, made))
    ensures ServersInv(StepMachine(w, k, env, made))
  {
    var v := MoveOf(w, k, env, made);
    ReconcileIsLawful(w, k, env, made);
    forall k' | k' in w.machines
      ensures MachineOK(Moved(w, k, v).servers, Moved(w, k, v).log, k', Moved(w, k, v).machines[k'])
    {
      LawfulKeepsMachines(w, k, v, k');
    }
    LawfulKeepsServers(w, k, v);
    LawfulKeepsLedgers(w, k, v);
    assert StepMachine(w, k, env, made) == Moved(w, k, v);
  }

  // ---------- the other steps ----------

  lemma ClusterStepKeepsServersInv(w: World, k: Key, env: C.ClusterEnv, made: Option<string>)
    requires ServersInv(w) && ClusterPresent(w, k)
    ensures ServersInv(StepCluster(w, k, env, made))
  {
    var w' := StepCluster(w, k, env, made);
    var call := C.ReconcileEffect(w.clusters[k].obj, env).call;
    forall k' | k' in w'.machines
      ensures MachineOK(w'.servers, w'.log, k', w'.machines[k'])
    {
      assert MachineOK(w.servers, w.log, k', w.machines[k']);
      if call.Some? {
        MachineFramed(w.servers, w.servers, w.log, [ClusterCall(k, call.value, env.reply)], k', w.machines[k']);
      }
    }
    assert forall s :: s in w'.servers ==> ServerOK(w, s) && ServerOK(w', s);
  }

  lemma RegisterKeepsServersInv(w: World, k: Key, place: Placement, m: Machine)
    requires ServersInv(w) && k !in w.machines && PristineMachine(m)
    ensures ServersInv(Step(w, RegisterMachine(k, place, m)))
  {
    var w' := Step(w, RegisterMachine(k, place, m));
    forall s | s in w'.servers
      ensures ServerOK(w', s)
    {
      assert ServerOK(w, s);
    }
  }

  lemma ObjectStepsKeepServersInv(w: World, l: Label)
    requires ServersInv(w)
    requires l.MarkMachineDeleted? || l.EditMachineFinalizers?
    ensures ServersInv(Step(w, l))
  {
    if MachinePresent(w, l.key) {
      var m := w.machines[l.key].obj;
      assert MachineOK(w.servers, w.log, l.key, w.machines[l.key]);
      StoringKeepsInv(w, l.key,
        if l.MarkMachineDeleted? then m.(deleting := true)
        else m.(finalizers := Edited(m.finalizers, MachineFinalizer, l.foreign)));
    }
  }

  lemma UntouchedServersKeepInv(w: World, w': World)
    requires ServersInv(w)
    requires w'.servers == w.servers && w'.machines == w.machines && w'.lostServers == w.lostServers && w'.log == w.log
    ensures ServersInv(w')
  {
    forall s | s in w'.servers
      ensures ServerOK(w', s)
    {
      assert ServerOK(w, s);
    }
  }

  lemma StepKeepsServersInv(w: World, l: Label)
    requires ServersInv(w) && Allowed(w, l)
    ensures ServersInv(Step(w, l))
  {
    match l
    case ReconcileMachine(k, env, made) =>
      if MachinePresent(w, k) {
        ReconcileKeepsServersInv(w, k, env, made);
      }
    case ReconcileCluster(k, env, made) =>
      if ClusterPresent(w, k) {
        ClusterStepKeepsServersInv(w, k, env, made);
      }
    case RegisterMachine(k, place, m) =>
      if k !in w.machines {
        RegisterKeepsServersInv(w, k, place, m);
      }
    case MarkMachineDeleted(_) => ObjectStepsKeepServersInv(w, l);
    case EditMachineFinalizers(_, _) => ObjectStepsKeepServersInv(w, l);
    case _ => UntouchedServersKeepInv(w, Step(w, l));
  }

  /** The invariant holds in every state of every run. */
  lemma {:induction false} RunKeepsServersInv(w: World, labels: seq<Label>)
    requires ServersInv(w) && ValidRun(w, labels)
    ensures ServersInv(Run(w, labels))
    decreases |labels|
  {
    if labels != [] {
      StepKeepsServersInv(w, labels[0]);
      RunKeepsServersInv(Step(w, labels[0]), labels[1..]);
    }
  }
}
