/** What the server invariant means for whole runs that start from an empty world. */
module ServerTheorems {
  import opened Wrappers
  import opened Api
  import opened TransitionSystem
  import opened ServerInvariant
  import M = MachineModel
  import F = MachineFacts

  predicate Reached(w: World, labels: seq<Label>) {
    ValidRun(EMPTY_WORLD, labels) && w == Run(EMPTY_WORLD, labels)
  }

  lemma ReachedKeepsServersInv(w: World, labels: seq<Label>)
    requires Reached(w, labels)
    ensures ServersInv(w)
  {
    RunKeepsServersInv(EMPTY_WORLD, labels);
  }

  // ---------- conservation ----------

  function CreatedFor(w: World, k: Key): set<string> {
    set s | s in w.servers && w.servers[s].owner == k
  }

  function RecordedBy(w: World, k: Key): set<string> {
    set s | s in CreatedFor(w, k) && !w.servers[s].released && MachinePresent(w, k) && M.GetMachineID(w.machines[k].obj) == s
  }

  function ReleasedOf(w: World, k: Key): set<string> {
    set s | s in CreatedFor(w, k) && w.servers[s].released
  }

  function LostOf(w: World, k: Key): set<string> {
    set s | s in CreatedFor(w, k) && s in w.lostServers
  }

  function LostInCreation(w: World, k: Key): set<string> {
    set s | s in LostOf(w, k) && CreateFault(w.lostServers[s])
  }

  lemma DisjointUnionSize<T>(a: set<T>, b: set<T>)
    requires a !! b
    ensures |a + b| == |a| + |b|
  {
  }

  lemma RecordedReleasedOrLost(w: World, k: Key, s: string)
    requires s in CreatedFor(w, k) && ServerOK(w, s)
    ensures s in RecordedBy(w, k) || s in ReleasedOf(w, k) || s in LostOf(w, k)
    ensures !(s in RecordedBy(w, k) && s in LostOf(w, k)) && !(s in ReleasedOf(w, k) && s in LostOf(w, k))
  {
  }

  /** Every server ever created for a machine is recorded by it, deprovisioned, or lost with a named cause; never two of these. */
  lemma ServersAreConserved(w: World, labels: seq<Label>, k: Key)
    requires Reached(w, labels)
    ensures CreatedFor(w, k) == RecordedBy(w, k) + ReleasedOf(w, k) + LostOf(w, k)
    ensures |CreatedFor(w, k)| == |RecordedBy(w, k)| + |ReleasedOf(w, k)| + |LostOf(w, k)|
    ensures |RecordedBy(w, k)| <= 1
  {
    ReachedKeepsServersInv(w, labels);
    var created, recorded, released, lost := CreatedFor(w, k), RecordedBy(w, k), ReleasedOf(w, k), LostOf(w, k);
    forall s | s in created
      ensures s in recorded + released + lost
      ensures !(s in recorded && s in lost) && !(s in released && s in lost)
    {
      assert ServerOK(w, s);
      RecordedReleasedOrLost(w, k, s);
    }
    PartitionSizes(created, recorded, released, lost);
    if recorded != {} {
      assert recorded == {M.GetMachineID(w.machines[k].obj)};
    }
  }

  lemma PartitionSizes<T>(whole: set<T>, a: set<T>, b: set<T>, c: set<T>)
    requires forall x :: x in whole ==> x in a + b + c
    requires a <= whole && b <= whole && c <= whole && a !! b
    requires forall x :: x in whole ==> !(x in a && x in c) && !(x in b && x in c)
    ensures whole == a + b + c
    ensures |whole| == |a| + |b| + |c|
  {
    assert whole == a + b + c;
    assert (a + b) !! c;
    DisjointUnionSize(a, b);
    DisjointUnionSize(a + b, c);
  }

  /** Beyond the first server of a machine, each further one is the price of a fault during a create. */
  lemma ExtraServersAreCreateFaults(w: World, labels: seq<Label>, k: Key)
    requires Reached(w, labels)
    ensures |CreatedFor(w, k)| <= 1 + |LostInCreation(w, k)|
  {
    ReachedKeepsServersInv(w, labels);
    var current := if k in w.machines then M.GetMachineID(w.machines[k].obj) else "";
    forall s | s in CreatedFor(w, k)
      ensures s in LostInCreation(w, k) || s == current
    {
      assert ServerOK(w, s);
    }
    AtMostOneMore(CreatedFor(w, k), LostInCreation(w, k), current);
  }

  lemma AtMostOneMore<T>(whole: set<T>, part: set<T>, x: T)
    requires part <= whole && forall y :: y in whole ==> y in part || y == x
    ensures |whole| <= 1 + |part|
  {
    DisjointUnionSize(part, whole - part);
    assert whole == part + (whole - part);
    SubsetSize(whole - part, {x});
  }

  lemma {:induction false} SubsetSize<T>(a: set<T>, b: set<T>)
    requires a <= b
    ensures |a| <= |b|
  {
    DisjointUnionSize(a, b - a);
    assert b == a + (b - a);
  }

  /** Nothing goes wrong with a create: a server comes with a delivered id that can be, and is, written down. */
  predicate FaultFreeCreate(w: World, l: Label) {
    l.ReconcileMachine? && SendsServerCreate(w, l.key, l.menv) && l.made.Some? ==>
      && Delivered(l.menv.reply) && l.menv.reply.body.value.bmcServerID != ""
      && w.machines[l.key].obj.annotations.Some? && l.menv.patch.meta
  }

  /** What happened in the step that added a server to the ledger of losses. */
  predicate Charged(w: World, l: Label, s: string, loss: ServerLoss) {
    match loss
    case ReplyLost => CreateCharged(w, l, s) && !Accepted(l.menv.reply)
    case ReplyUndecodable => CreateCharged(w, l, s) && Accepted(l.menv.reply) && l.menv.reply.body.None?
    case EmptyServerID => CreateCharged(w, l, s) && Delivered(l.menv.reply) && l.menv.reply.body.value.bmcServerID == ""
    case NilAnnotationMap => CreateCharged(w, l, s) && w.machines[l.key].obj.annotations.None?
    case MetadataPatchLost => CreateCharged(w, l, s) && !l.menv.patch.meta
    case DeprovisionFailed => Disappears(w, l, s) && Attempted(Step(w, l).log, w.servers[s].owner, s)
    case SkippedAsOrphaned =>
      Disappears(w, l, s) && Step(w, l).machines[w.servers[s].owner].obj.status.bmcStatus == Orphaned
  }

  predicate CreateCharged(w: World, l: Label, s: string) {
    l.ReconcileMachine? && l.made == Some(s) && SendsServerCreate(w, l.key, l.menv)
  }

  /** The stored owner of a recorded, unreleased server goes away in this step. */
  predicate Disappears(w: World, l: Label, s: string) {
    s in w.servers && !w.servers[s].released && MachinePresent(w, w.servers[s].owner)
    && M.GetMachineID(w.machines[w.servers[s].owner].obj) == s
    && !MachinePresent(Step(w, l), w.servers[s].owner)
  }

  /** A move charges a server it just made and could not record, or the recorded server of a machine that goes away. */
  lemma LossesOfMove(w: World, k: Key, v: Move, s: string)
    requires Lawful(w, k, v) && s in Moved(w, k, v).lostServers
    requires MachineOK(w.servers, w.log, k, w.machines[k])
    ensures var w' := Moved(w, k, v);
            var creating := v.call.Some? && v.call.value.PostServer? && v.made == Some(s);
            if creating then
              || CreateLoss(w.machines[k].obj, v.reply, v.patch) == Some(w'.lostServers[s])
              || (s in w.lostServers && w'.lostServers[s] == w.lostServers[s])
            else if w'.machines[k].gone && s == M.GetMachineID(v.stored) && s !in w.lostServers then
              && s in w.servers && !w.servers[s].released && s == M.GetMachineID(w.machines[k].obj)
              && (if Attempted(w'.log, k, s) then w'.lostServers[s] == DeprovisionFailed
                  else v.stored.status.bmcStatus == Orphaned && w'.lostServers[s] == SkippedAsOrphaned)
            else s in w.lostServers
  {
  }

  /** The ledger only grows, never changes a cause, and every new charge is the fault it names. */
  lemma EveryLossIsCharged(w: World, l: Label, s: string)
    requires ServersInv(w) && Allowed(w, l) && s in Step(w, l).lostServers
    ensures if s in w.lostServers then Step(w, l).lostServers[s] == w.lostServers[s]
            else Charged(w, l, s, Step(w, l).lostServers[s])
  {
    if l.ReconcileMachine? && MachinePresent(w, l.key) {
      ReconcileLossIsCharged(w, l, s);
    } else if (l.MarkMachineDeleted? || l.EditMachineFinalizers?) && MachinePresent(w, l.key) {
      EditLossIsCharged(w, l, s);
    }
  }

  lemma ReconcileLossIsCharged(w: World, l: Label, s: string)
    requires ServersInv(w) && Allowed(w, l) && s in Step(w, l).lostServers
    requires l.ReconcileMachine? && MachinePresent(w, l.key)
    ensures if s in w.lostServers then Step(w, l).lostServers[s] == w.lostServers[s]
            else Charged(w, l, s, Step(w, l).lostServers[s])
  {
    var v := MoveOf(w, l.key, l.menv, l.made);
    ReconcileIsLawful(w, l.key, l.menv, l.made);
    assert Step(w, l) == Moved(w, l.key, v);
    assert MachineOK(w.servers, w.log, l.key, w.machines[l.key]);
    if s in w.lostServers {
      assert ServerOK(w, s);
      CallKeepsOldAccounts(w, l.key, v, s);
      LossesAreFinal(w, l.key, v, s);
    } else {
      LossesOfMove(w, l.key, v, s);
    }
  }

  lemma LossesAreFinal(w: World, k: Key, v: Move, s: string)
    requires Lawful(w, k, v) && s in w.servers && s in w.lostServers && ServerOK(w, s)
    requires MachineOK(w.servers, w.log, k, w.machines[k])
    ensures s in Moved(w, k, v).lostServers && Moved(w, k, v).lostServers[s] == w.lostServers[s]
  {
    CallKeepsOldAccounts(w, k, v, s);
  }

  /** Storing a machine charges at most its recorded server, and only when the machine goes away. */
  lemma LossOfStoring(w: World, k: Key, m: Machine, s: string)
    requires MachinePresent(w, k) && MachineOK(w.servers, w.log, k, w.machines[k])
    requires m.annotations == w.machines[k].obj.annotations
    requires s in StoreMachine(w, k, m).lostServers && s !in w.lostServers && "" !in w.servers
    ensures var w' := StoreMachine(w, k, m);
            && w'.machines[k].gone && s == M.GetMachineID(w.machines[k].obj) && s in w.servers
            && w.servers[s].owner == k && !w.servers[s].released
            && (if Attempted(w.log, k, s) then w'.lostServers[s] == DeprovisionFailed
                else m.status.bmcStatus == Orphaned && w'.lostServers[s] == SkippedAsOrphaned)
  {
  }

  lemma EditLossIsCharged(w: World, l: Label, s: string)
    requires ServersInv(w) && s in Step(w, l).lostServers
    requires (l.MarkMachineDeleted? || l.EditMachineFinalizers?) && MachinePresent(w, l.key)
    ensures if s in w.lostServers then Step(w, l).lostServers[s] == w.lostServers[s]
            else Charged(w, l, s, Step(w, l).lostServers[s])
  {
    if s in w.lostServers {
      EditKeepsCause(w, l, s);
    } else {
      EditChargesVanished(w, l, s);
    }
  }

  lemma EditChargesVanished(w: World, l: Label, s: string)
    requires ServersInv(w) && s in Step(w, l).lostServers && s !in w.lostServers
    requires (l.MarkMachineDeleted? || l.EditMachineFinalizers?) && MachinePresent(w, l.key)
    ensures Charged(w, l, s, Step(w, l).lostServers[s])
  {
    var m := w.machines[l.key].obj;
    assert MachineOK(w.servers, w.log, l.key, w.machines[l.key]);
    assert "" in w.servers ==> ServerOK(w, "");
    if l.MarkMachineDeleted? {
      LossOfStoring(w, l.key, m.(deleting := true), s);
    } else {
      LossOfStoring(w, l.key, m.(finalizers := Edited(m.finalizers, MachineFinalizer, l.foreign)), s);
    }
  }

  lemma StoringKeepsCause(w: World, k: Key, m: Machine, s: string)
    requires MachinePresent(w, k) && s in w.servers && s in w.lostServers && ServerOK(w, s)
    requires MachineOK(w.servers, w.log, k, w.machines[k])
    requires m.annotations == w.machines[k].obj.annotations
    ensures s in StoreMachine(w, k, m).lostServers && StoreMachine(w, k, m).lostServers[s] == w.lostServers[s]
  {
  }

  lemma EditKeepsCause(w: World, l: Label, s: string)
    requires ServersInv(w) && s in w.lostServers
    requires (l.MarkMachineDeleted? || l.EditMachineFinalizers?) && MachinePresent(w, l.key)
    ensures s in Step(w, l).lostServers && Step(w, l).lostServers[s] == w.lostServers[s]
  {
    assert s in w.servers && ServerOK(w, s);
    var m := w.machines[l.key].obj;
    assert MachineOK(w.servers, w.log, l.key, w.machines[l.key]);
    if l.MarkMachineDeleted? {
      StoringKeepsCause(w, l.key, m.(deleting := true), s);
    } else {
      StoringKeepsCause(w, l.key, m.(finalizers := Edited(m.finalizers, MachineFinalizer, l.foreign)), s);
    }
  }

  /** Only a faulty create adds to the servers a machine lost in creation. */
  lemma OnlyFaultsLoseInCreation(w: World, l: Label, k: Key)
    requires ServersInv(w) && Allowed(w, l) && (l.key == k ==> FaultFreeCreate(w, l))
    ensures LostInCreation(Step(w, l), k) <= LostInCreation(w, k)
  {
    var w' := Step(w, l);
    StepKeepsServersInv(w, l);
    forall s | s in LostInCreation(w', k)
      ensures s in LostInCreation(w, k)
    {
      EveryLossIsCharged(w, l, s);
      if s in w.lostServers {
        assert s in w.servers;
        ServersKeepOwner(w, l, s);
      } else {
        assert CreateCharged(w, l, s);
        MadeServerIsOwned(w, l.key, l.menv, s);
      }
    }
  }

  /** The cloud changes only through the call of a machine's reconcile. */
  lemma ServersChangeByCall(w: World, l: Label)
    ensures Step(w, l).servers ==
              if l.ReconcileMachine? && MachinePresent(w, l.key)
              then CloudAfter(w.servers, l.key, MachineEffectIn(w, l.key, l.menv).call, l.menv.reply, l.made)
              else w.servers
  {
  }

  lemma ServersKeepOwner(w: World, l: Label, s: string)
    requires Allowed(w, l) && s in w.servers
    ensures s in Step(w, l).servers && Step(w, l).servers[s].owner == w.servers[s].owner
  {
    ServersChangeByCall(w, l);
  }

  lemma MadeServerIsOwned(w: World, k: Key, env: M.MachineEnv, s: string)
    requires SendsServerCreate(w, k, env)
    ensures s in Step(w, ReconcileMachine(k, env, Some(s))).servers
    ensures Step(w, ReconcileMachine(k, env, Some(s))).servers[s].owner == k
  {
    var call := MachineEffectIn(w, k, env).call;
    assert Step(w, ReconcileMachine(k, env, Some(s))).servers == CloudAfter(w.servers, k, call, env.reply, Some(s));
  }

  lemma {:induction false} FaultFreeRunLosesNothingInCreation(w: World, labels: seq<Label>, k: Key)
    requires ServersInv(w) && ValidRun(w, labels) && Throughout(w, labels, k, FaultFreeCreate)
    ensures LostInCreation(Run(w, labels), k) <= LostInCreation(w, k)
    decreases |labels|
  {
    if labels != [] {
      StepKeepsServersInv(w, labels[0]);
      OnlyFaultsLoseInCreation(w, labels[0], k);
      FaultFreeRunLosesNothingInCreation(Step(w, labels[0]), labels[1..], k);
    }
  }

  /** A run without create faults for a machine creates at most one server for it. */
  lemma FaultFreeRunCreatesAtMostOneServer(w: World, labels: seq<Label>, k: Key)
    requires Reached(w, labels) && Throughout(EMPTY_WORLD, labels, k, FaultFreeCreate)
    ensures |CreatedFor(w, k)| <= 1
  {
    FaultFreeRunLosesNothingInCreation(EMPTY_WORLD, labels, k);
    ExtraServersAreCreateFaults(w, labels, k);
    assert LostInCreation(w, k) == {};
  }

  // ---------- ownership ----------

  /** No two machines ever record the same server. */
  lemma ServersAreNotShared(w: World, labels: seq<Label>, j: Key, k: Key)
    requires Reached(w, labels) && j in w.machines && k in w.machines
    requires M.GetMachineID(w.machines[j].obj) == M.GetMachineID(w.machines[k].obj) != ""
    ensures j == k
  {
    ReachedKeepsServersInv(w, labels);
    assert MachineOK(w.servers, w.log, j, w.machines[j]) && MachineOK(w.servers, w.log, k, w.machines[k]);
  }

  /** Every poll and every deprovision of a run names a server that was created for the machine it is sent for. */
  lemma CallsStayWithTheOwner(w: World, labels: seq<Label>, e: Entry)
    requires Reached(w, labels) && e in w.log && e.MachineCall?
    requires e.call.GetServer? || e.call.Deprovision?
    ensures e.call.id in CreatedFor(w, e.machine)
  {
    ReachedKeepsServersInv(w, labels);
    assert EntryOK(w.servers, e);
  }

  // ---------- finalizers and identity ----------

  /** A stored machine with a server holds its finalizer, unless its delete reconcile has been persisted. */
  lemma RecordedServerIsGuarded(w: World, labels: seq<Label>, k: Key)
    requires Reached(w, labels) && k in w.machines && M.GetMachineID(w.machines[k].obj) != ""
    ensures var m := w.machines[k].obj;
            && (!m.deleting ==> MachinePresent(w, k) && MachineFinalizer in m.finalizers)
            && (MachineFinalizer in m.finalizers
                || Attempted(w.log, k, M.GetMachineID(m)) || m.status.bmcStatus == Orphaned)
    ensures var m := w.machines[k].obj;
            w.machines[k].gone ==> Attempted(w.log, k, M.GetMachineID(m)) || m.status.bmcStatus == Orphaned
  {
    ReachedKeepsServersInv(w, labels);
    assert MachineOK(w.servers, w.log, k, w.machines[k]);
  }

  /** A persisted delete reconcile always releases the finalizer, whatever the cloud answers. */
  lemma DeleteReleasesFinalizer(w: World, k: Key, env: M.MachineEnv, made: Option<string>)
    requires MachinePresent(w, k) && w.machines[k].obj.deleting
    requires env.gate != M.OwnerLookupFailed && env.gate != M.OwnerMissing && env.patch.meta
    ensures var slot := Step(w, ReconcileMachine(k, env, made)).machines[k];
            && MachineFinalizer !in slot.obj.finalizers
            && slot.obj.finalizers == w.machines[k].obj.finalizers - {MachineFinalizer}
            && (slot.gone <==> w.machines[k].obj.finalizers <= {MachineFinalizer})
  {
  }

  /**
   A delete reconcile settles the account of the recorded server: it ends released exactly if it
   was, or if a deprovision was due and answered 2xx; and if the machine goes away with it
   unreleased, it is lost, to the failed deprovision if one was ever attempted.
   */
  lemma DeletionSettlesServer(w: World, labels: seq<Label>, k: Key, env: M.MachineEnv, made: Option<string>)
    requires Reached(w, labels) && MachinePresent(w, k) && w.machines[k].obj.deleting
    requires env.gate != M.OwnerLookupFailed && env.gate != M.OwnerMissing && M.GetMachineID(w.machines[k].obj) != ""
    ensures var w' := Step(w, ReconcileMachine(k, env, made));
            var id := M.GetMachineID(w.machines[k].obj);
            var due := w.machines[k].obj.status.bmcStatus != Orphaned;
            && id in w.servers && id in w'.servers
            && (w'.servers[id].released <==> w.servers[id].released || (due && Accepted(env.reply)))
            && (Attempted(w'.log, k, id) <==> Attempted(w.log, k, id) || due)
            && (id in w'.lostServers <==> w'.machines[k].gone && !w'.servers[id].released)
            && (id in w'.lostServers ==>
                  w'.lostServers[id] == if Attempted(w'.log, k, id) then DeprovisionFailed else SkippedAsOrphaned)
  {
    ReachedKeepsServersInv(w, labels);
    DeletionMoveIsPlain(w, k, env, made);
    DeletionMoveReleases(w, k, MoveOf(w, k, env, made));
    DeletionMoveSettles(w, k, MoveOf(w, k, env, made));
  }

  /** The move of a delete reconcile: lawful, and a deprovision of the recorded server unless that is orphaned. */
  lemma DeletionMoveIsPlain(w: World, k: Key, env: M.MachineEnv, made: Option<string>)
    requires ServersInv(w) && MachinePresent(w, k) && w.machines[k].obj.deleting
    requires env.gate != M.OwnerLookupFailed && env.gate != M.OwnerMissing && M.GetMachineID(w.machines[k].obj) != ""
    ensures var v := MoveOf(w, k, env, made);
            var m := w.machines[k].obj;
            && Lawful(w, k, v) && MachineOK(w.servers, w.log, k, w.machines[k])
            && M.GetMachineID(m) in w.servers && ServerOK(w, M.GetMachineID(m))
            && v.call == (if m.status.bmcStatus == Orphaned then None else Some(Deprovision(M.GetMachineID(m))))
            && v.reply == env.reply && Step(w, ReconcileMachine(k, env, made)) == Moved(w, k, v)
  {
    ReconcileIsLawful(w, k, env, made);
    assert MachineOK(w.servers, w.log, k, w.machines[k]);
    DeletionCalls(w.machines[k].obj, SiteOf(w, k), EnvSeen(w, k, env));
  }

  /** When a delete reconcile asks for a deprovision. */
  lemma DeletionCalls(m: Machine, site: M.Site, env: M.MachineEnv)
    requires m.deleting && env.gate != M.OwnerLookupFailed && env.gate != M.OwnerMissing && M.GetMachineID(m) != ""
    ensures M.ReconcileEffect(m, site, env).call ==
              if m.status.bmcStatus == Orphaned then None else Some(Deprovision(M.GetMachineID(m)))
  {
  }

  lemma DeletionMoveReleases(w: World, k: Key, v: Move)
    requires Lawful(w, k, v) && M.GetMachineID(w.machines[k].obj) in w.servers
    requires v.call.Some? ==> v.call.value.Deprovision?
    ensures var w' := Moved(w, k, v);
            var id := M.GetMachineID(w.machines[k].obj);
            && id in w'.servers
            && (w'.servers[id].released <==> w.servers[id].released || (v.call.Some? && Accepted(v.reply)))
            && (Attempted(w'.log, k, id) <==> Attempted(w.log, k, id) || v.call.Some?)
  {
    CallKeepsOldAccounts(w, k, v, M.GetMachineID(w.machines[k].obj));
    if v.call.Some? {
      var e := MachineCall(k, v.call.value, v.reply);
      EvidenceGrows(w.log, [e], k, M.GetMachineID(w.machines[k].obj));
      assert e in Moved(w, k, v).log;
    }
  }

  lemma DeletionMoveSettles(w: World, k: Key, v: Move)
    requires Lawful(w, k, v) && MachineOK(w.servers, w.log, k, w.machines[k])
    requires var id := M.GetMachineID(w.machines[k].obj); id != "" && ServerOK(w, id)
    requires v.call.Some? ==> v.call.value.Deprovision?
    ensures var w' := Moved(w, k, v);
            var id := M.GetMachineID(w.machines[k].obj);
            && id in w'.servers
            && (id in w'.lostServers <==> w'.machines[k].gone && !w'.servers[id].released)
            && (id in w'.lostServers ==>
                  w'.lostServers[id] == if Attempted(w'.log, k, id) then DeprovisionFailed else SkippedAsOrphaned)
  {
    var id := M.GetMachineID(w.machines[k].obj);
    CallKeepsOldAccounts(w, k, v, id);
    StoredMachineOK(w, k, v);
    OldServersKeepTheirAccount(w, k, v, id);
    if id in Moved(w, k, v).lostServers {
      LossesOfMove(w, k, v, id);
    }
  }

  /** The provider id always spells the recorded server, so it is never nil where a node is bound. */
  lemma ProviderIDSpellsServer(w: World, labels: seq<Label>, k: Key)
    requires Reached(w, labels) && k in w.machines && M.GetMachineID(w.machines[k].obj) != ""
    ensures w.machines[k].obj.providerID == Some("bmc://servers/" + M.GetMachineID(w.machines[k].obj))
  {
    ReachedKeepsServersInv(w, labels);
    assert MachineOK(w.servers, w.log, k, w.machines[k]);
  }

  /**
   In reachable states a machine's reconcile panics exactly when a live machine's cluster names no
   infrastructure, or when a delivered create meets a nil annotation map; never on a nil provider id.
   */
  lemma MachinePanicsIff(w: World, labels: seq<Label>, k: Key, env: M.MachineEnv)
    requires Reached(w, labels) && MachinePresent(w, k)
    ensures var m := w.machines[k].obj;
            MachineEffectIn(w, k, env).result == Panicked <==>
              && !m.deleting
              && (|| env.gate == M.InfrastructureRefMissing
                  || (SendsServerCreate(w, k, env) && Delivered(env.reply) && m.annotations.None?))
  {
    ReachedKeepsServersInv(w, labels);
    assert MachineOK(w.servers, w.log, k, w.machines[k]);
    F.PanicsIff(w.machines[k].obj, SiteOf(w, k), EnvSeen(w, k, env));
  }
}
