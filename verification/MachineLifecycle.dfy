/**
 The life of a machine over whole runs: readiness is earned and kept, addresses agree with
 the reported ones, and the concrete steps refine the automaton
 Absent -> NoServer -> Provisioned -> Ready -> Gone. A create reply overwrites the whole
 status, and each of these facts holds in exactly the runs whose create replies respect it.
 */
module MachineLifecycle {
  import opened Wrappers
  import opened Api
  import opened TransitionSystem
  import opened ServerInvariant
  import M = MachineModel
  import C = ClusterModel
  import F = MachineFacts
  import O = MachineOutcomes
  import T = ServerTheorems

  // ---------- one reconcile ----------

  /** A ready, powered-on machine lists exactly its public addresses as external addresses. */
  predicate AddressesAgree(s: MachineStatus) {
    s.ready && s.bmcStatus == PoweredOn ==> s.addresses == M.ExternalAddresses(s.publicIPs)
  }

  predicate BoundOnlyWhenReady(s: MachineStatus) {
    s.nodeRef.Some? ==> s.ready
  }

  /** What a reconcile keeps of the status of a machine that has its server. */
  predicate StatusKept(m: Machine, m': Machine) {
    && (m.status.ready ==> m'.status.ready)
    && (m.status.nodeRef.Some? ==> m'.status.nodeRef == m.status.nodeRef)
    && (m.status.failureReason.Some? ==> m'.status.failureReason.Some?)
    && (AddressesAgree(m.status) ==> AddressesAgree(m'.status))
    && (BoundOnlyWhenReady(m.status) ==> BoundOnlyWhenReady(m'.status))
  }

  /** Taking over a changed status. */
  lemma UpdatedKeepsStatus(m: Machine, s: MachineStatus)
    requires m.status.bmcStatus != s.bmcStatus
    ensures var m' := M.Updated(m, s);
            && StatusKept(m, m') && AddressesAgree(m'.status) && m'.providerID == m.providerID
            && (m'.status.ready <==> m.status.ready || s.bmcStatus == PoweredOn)
  {
  }

  lemma PolledKeepsStatus(m: Machine, call: Call, hostname: string, s: MachineStatus, node: M.NodeLookup)
    requires m.providerID.Some?
    ensures var m' := M.PolledEffect(m, call, hostname, s, node).obj;
            StatusKept(m, m') && (m'.status.ready <==> m.status.ready || s.bmcStatus == PoweredOn)
  {
    var delta := m.status.bmcStatus != s.bmcStatus;
    if delta {
      UpdatedKeepsStatus(m, s);
    }
    F.BoundChangesNodeOnly(if delta then M.Updated(m, s) else m, hostname, node);
  }

  /** A poll keeps the status facts and makes ready exactly when it delivers a powered-on server. */
  lemma SyncKeepsStatus(m: Machine, hostname: string, reply: Reply<MachineStatus>, node: M.NodeLookup)
    requires m.providerID.Some?
    ensures var m' := M.SyncEffect(m, hostname, reply, node).obj;
            && StatusKept(m, m')
            && (m'.status.ready <==> m.status.ready || (Delivered(reply) && reply.body.value.bmcStatus == PoweredOn))
  {
    if Delivered(reply) {
      PolledKeepsStatus(m, GetServer(M.GetMachineID(m)), hostname, reply.body.value, node);
    }
  }

  /** Readiness, node, failure and address agreement of a machine with a server survive every reconcile. */
  lemma ReconcileKeepsStatus(m: Machine, site: M.Site, env: M.MachineEnv)
    requires M.GetMachineID(m) != "" && m.providerID.Some?
    ensures StatusKept(m, M.ReconcileEffect(m, site, env).obj)
  {
    SyncKeepsStatus(m.(finalizers := m.finalizers + {MachineFinalizer}), site.hostname, env.reply, env.node);
  }

  /** A reconcile of a machine without a server keeps its status but for the verdict, unless it adopts a create reply. */
  lemma WithoutServerStatusIsKept(m: Machine, site: M.Site, env: M.MachineEnv)
    requires M.GetMachineID(m) == ""
    ensures var s, s' := m.status, M.ReconcileEffect(m, site, env).obj.status;
            if F.Posted(m, site, env) && Delivered(env.reply) then s' == env.reply.body.value
            else && s'.ready == s.ready && s'.nodeRef == s.nodeRef && s'.addresses == s.addresses
                 && s'.publicIPs == s.publicIPs && (s'.bmcStatus == PoweredOn ==> s.bmcStatus == PoweredOn)
                 && (s.failureReason.Some? ==> s'.failureReason.Some?)
  {
  }

  /**
   A reconcile leaves a machine ready exactly when it was, or when the status patch arrives and
   either a poll delivered the server powered on or a create reply said it is ready.
   */
  lemma ReadinessIsEarned(m: Machine, site: M.Site, env: M.MachineEnv)
    requires M.GetMachineID(m) != "" ==> m.providerID.Some?
    requires m.status.ready ==> M.GetMachineID(m) != ""
    ensures var eff := M.ReconcileEffect(m, site, env);
            M.Persisted(m, eff.obj, env.patch).status.ready <==>
              || m.status.ready
              || (&& env.patch.status && Delivered(env.reply)
                  && (|| (eff.call == Some(GetServer(M.GetMachineID(m))) && env.reply.body.value.bmcStatus == PoweredOn)
                      || (F.Posted(m, site, env) && env.reply.body.value.ready)))
  {
    if M.ReconcileEffect(m, site, env).call.Some? {
      F.CallsNameTheRecordedServer(m, site, env);
    }
    if M.GetMachineID(m) == "" {
      WithoutServerStatusIsKept(m, site, env);
    } else {
      SyncKeepsStatus(m.(finalizers := m.finalizers + {MachineFinalizer}), site.hostname, env.reply, env.node);
    }
  }

  // ---------- other steps ----------

  lemma LogOnlyGrows(w: World, l: Label)
    ensures |w.log| <= |Step(w, l).log| && Step(w, l).log[..|w.log|] == w.log
  {
    if l.ReconcileMachine? && MachinePresent(w, l.key) {
      var call := MachineEffectIn(w, l.key, l.menv).call;
      assert Step(w, l).log == if call.Some? then w.log + [MachineCall(l.key, call.value, l.menv.reply)] else w.log;
    } else if l.ReconcileCluster? && ClusterPresent(w, l.key) {
      var call := C.ReconcileEffect(w.clusters[l.key].obj, l.cenv).call;
      assert Step(w, l).log == if call.Some? then w.log + [ClusterCall(l.key, call.value, l.cenv.reply)] else w.log;
    }
  }

  predicate Edits(l: Label, k: Key) {
    (l.MarkMachineDeleted? || l.EditMachineFinalizers?) && l.key == k
  }

  lemma EditLeavesMachine(w: World, l: Label, k: Key)
    requires k in w.machines && Edits(l, k)
    ensures k in Step(w, l).machines && Step(w, l).machines[k].place == w.machines[k].place
    ensures var m, m' := w.machines[k].obj, Step(w, l).machines[k].obj;
            m'.annotations == m.annotations && m'.providerID == m.providerID && m'.status == m.status
  {
    match l
    case MarkMachineDeleted(_) =>
    case EditMachineFinalizers(_, _) =>
  }

  lemma ForeignStepLeavesMachine(w: World, l: Label, k: Key)
    requires k in w.machines && !(l.ReconcileMachine? && l.key == k) && !Edits(l, k)
    ensures k in Step(w, l).machines && Step(w, l).machines[k] == w.machines[k]
  {
  }

  /** Only its own reconcile touches the identity or the status of a machine. */
  lemma OtherStepsLeaveMachine(w: World, l: Label, k: Key)
    requires k in w.machines && !(l.ReconcileMachine? && l.key == k)
    ensures k in Step(w, l).machines && Step(w, l).machines[k].place == w.machines[k].place
    ensures var m, m' := w.machines[k].obj, Step(w, l).machines[k].obj;
            m'.annotations == m.annotations && m'.providerID == m.providerID && m'.status == m.status
  {
    if Edits(l, k) {
      EditLeavesMachine(w, l, k);
    } else {
      ForeignStepLeavesMachine(w, l, k);
    }
  }

  /** An id, once recorded, is there in every later state. */
  lemma IdentityStays(w: World, l: Label, k: Key)
    requires k in w.machines
    ensures k in Step(w, l).machines && Step(w, l).machines[k].place == w.machines[k].place
    ensures M.GetMachineID(w.machines[k].obj) != "" ==>
              M.GetMachineID(Step(w, l).machines[k].obj) == M.GetMachineID(w.machines[k].obj)
  {
    if l.ReconcileMachine? && l.key == k {
      if MachinePresent(w, k) && M.GetMachineID(w.machines[k].obj) != "" {
        F.RecordedIdentityIsKept(w.machines[k].obj, SiteOf(w, k), EnvSeen(w, k, l.menv));
      }
    } else {
      OtherStepsLeaveMachine(w, l, k);
    }
  }

  lemma NilMapStays(w: World, l: Label, k: Key)
    requires k in w.machines && w.machines[k].obj.annotations.None?
    ensures k in Step(w, l).machines && Step(w, l).machines[k].obj.annotations.None?
  {
    if l.ReconcileMachine? && l.key == k {
      if MachinePresent(w, k) {
        ReconcileKeepsNilMap(w.machines[k].obj, SiteOf(w, k), EnvSeen(w, k, l.menv));
        O.PatchPartsArriveAlone(w, k, l.menv, l.made);
      }
    } else {
      OtherStepsLeaveMachine(w, l, k);
    }
  }

  lemma ReconcileKeepsNilMap(m: Machine, site: M.Site, env: M.MachineEnv)
    requires m.annotations.None?
    ensures M.ReconcileEffect(m, site, env).obj.annotations.None?
  {
    if O.Creates(m, site, env) {
      O.CreateStores(m, site, env);
    } else {
      O.SilentReconcile(m, site, env);
    }
  }

  /** A machine whose annotation map is nil never gets a server recorded, however many are created for it. */
  lemma {:induction false} NilMapIsNeverServed(w: World, labels: seq<Label>, k: Key)
    requires k in w.machines && w.machines[k].obj.annotations.None?
    ensures k in Run(w, labels).machines && M.GetMachineID(Run(w, labels).machines[k].obj) == ""
    decreases |labels|
  {
    if labels != [] {
      NilMapStays(w, labels[0], k);
      NilMapIsNeverServed(Step(w, labels[0]), labels[1..], k);
    }
  }

  // ---------- facts about a status ----------

  predicate StatusHas(w: World, k: Key, fact: MachineStatus -> bool) {
    k in w.machines ==> fact(w.machines[k].obj.status)
  }

  /** A fact that holds at first and that no reconcile breaks but by adopting a create reply. */
  ghost predicate Kept(fact: MachineStatus -> bool) {
    && fact(EMPTY_MACHINE_STATUS)
    && (forall m: Machine, site, env ::
          && fact(m.status) && (M.GetMachineID(m) != "" ==> m.providerID.Some?)
          && !(F.Posted(m, site, env) && Delivered(env.reply)) ==>
            fact(M.ReconcileEffect(m, site, env).obj.status))
  }

  predicate Respects(w: World, l: Label, fact: MachineStatus -> bool) {
    Overwrites(w, l) ==> fact(l.menv.reply.body.value)
  }

  lemma AdoptedStatus(m: Machine, site: M.Site, env: M.MachineEnv)
    requires F.Posted(m, site, env) && Delivered(env.reply)
    ensures M.ReconcileEffect(m, site, env).obj.status == env.reply.body.value
  {
    F.CallsNameTheRecordedServer(m, site, env);
    WithoutServerStatusIsKept(m, site, env);
  }

  /** Such a fact about a machine is only ever broken by a create reply of its own that is stored. */
  lemma OnlyCreateRepliesBreakFacts(w: World, l: Label, k: Key, fact: MachineStatus -> bool)
    requires ServersInv(w) && Kept(fact) && StatusHas(w, k, fact) && Allowed(w, l)
    ensures StatusHas(Step(w, l), k, fact) <==> (l.key == k ==> Respects(w, l, fact))
  {
    if k !in w.machines {
      if k in Step(w, l).machines {
        NewMachinesArePristine(w, l, k);
      }
    } else if !(l.ReconcileMachine? && l.key == k) {
      OtherStepsLeaveMachine(w, l, k);
    } else if MachinePresent(w, k) {
      ReconciledStatus(w, l, fact);
    }
  }

  lemma NewMachinesArePristine(w: World, l: Label, k: Key)
    requires Allowed(w, l) && k !in w.machines && k in Step(w, l).machines
    ensures PristineMachine(Step(w, l).machines[k].obj)
  {
  }

  lemma ReconciledStatus(w: World, l: Label, fact: MachineStatus -> bool)
    requires ServersInv(w) && Kept(fact) && StatusHas(w, l.key, fact)
    requires l.ReconcileMachine? && MachinePresent(w, l.key)
    ensures fact(Step(w, l).machines[l.key].obj.status) <==> Respects(w, l, fact)
  {
    var m := w.machines[l.key].obj;
    var site, seen := SiteOf(w, l.key), EnvSeen(w, l.key, l.menv);
    var m' := M.ReconcileEffect(m, site, seen).obj;
    assert MachineOK(w.servers, w.log, l.key, w.machines[l.key]);
    assert fact(m.status);
    assert Step(w, l).machines[l.key].obj == M.Persisted(m, m', l.menv.patch);
    if F.Posted(m, site, seen) && Delivered(seen.reply) {
      AdoptedStatus(m, site, seen);
    } else {
      assert fact(m'.status);
    }
  }

  /**
   A fact about a machine is in force throughout a run exactly when every create reply of its own
   that is stored respects it.
   */
  lemma FactHoldsIffRespected(labels: seq<Label>, k: Key, fact: MachineStatus -> bool)
    requires ValidRun(EMPTY_WORLD, labels) && Kept(fact)
    ensures Always(EMPTY_WORLD, labels, w => StatusHas(w, k, fact)) <==>
              Throughout(EMPTY_WORLD, labels, k, (w, l) => Respects(w, l, fact))
    ensures Throughout(EMPTY_WORLD, labels, k, (w, l) => Respects(w, l, fact)) ==> StatusHas(Run(EMPTY_WORLD, labels), k, fact)
  {
    ServersInvIsKept();
    forall v, l | ServersInv(v) && StatusHas(v, k, fact) && Allowed(v, l)
      ensures StatusHas(Step(v, l), k, fact) <==> (l.key == k ==> Respects(v, l, fact))
    {
      OnlyCreateRepliesBreakFacts(v, l, k, fact);
    }
    AlwaysIffThroughout(EMPTY_WORLD, labels, k, ServersInv, w => StatusHas(w, k, fact), (w, l) => Respects(w, l, fact));
  }

  lemma ServersInvIsKept()
    ensures forall v, l :: ServersInv(v) && Allowed(v, l) ==> ServersInv(Step(v, l))
  {
    forall v, l | ServersInv(v) && Allowed(v, l)
      ensures ServersInv(Step(v, l))
    {
      StepKeepsServersInv(v, l);
    }
  }

  lemma ReconcileKeepsFacts(m: Machine, site: M.Site, env: M.MachineEnv)
    requires M.GetMachineID(m) != "" ==> m.providerID.Some?
    requires !(F.Posted(m, site, env) && Delivered(env.reply))
    ensures var s' := M.ReconcileEffect(m, site, env).obj.status;
            && (AddressesAgree(m.status) ==> AddressesAgree(s'))
            && (BoundOnlyWhenReady(m.status) ==> BoundOnlyWhenReady(s'))
  {
    if M.GetMachineID(m) == "" {
      WithoutServerStatusIsKept(m, site, env);
    } else {
      ReconcileKeepsStatus(m, site, env);
    }
  }

  lemma FactsAreKept()
    ensures Kept(AddressesAgree) && Kept(BoundOnlyWhenReady)
  {
    forall m, site, env | (M.GetMachineID(m) != "" ==> m.providerID.Some?)
                          && !(F.Posted(m, site, env) && Delivered(env.reply))
      ensures AddressesAgree(m.status) ==> AddressesAgree(M.ReconcileEffect(m, site, env).obj.status)
      ensures BoundOnlyWhenReady(m.status) ==> BoundOnlyWhenReady(M.ReconcileEffect(m, site, env).obj.status)
    {
      ReconcileKeepsFacts(m, site, env);
    }
  }

  /**
   A machine that is ready and powered on lists exactly its public addresses, in order, in every
   state of a run exactly when every stored create reply of its own does.
   */
  lemma AddressesAgreeIffReplied(labels: seq<Label>, k: Key)
    requires ValidRun(EMPTY_WORLD, labels)
    ensures Always(EMPTY_WORLD, labels, w => StatusHas(w, k, AddressesAgree)) <==>
              Throughout(EMPTY_WORLD, labels, k, (w, l) => Respects(w, l, AddressesAgree))
  {
    FactsAreKept();
    FactHoldsIffRespected(labels, k, AddressesAgree);
  }

  /**
   A machine is bound only when ready, in every state of a run, exactly when every stored create
   reply of its own has it so.
   */
  lemma NodeRefMeansReadyIffReplied(labels: seq<Label>, k: Key)
    requires ValidRun(EMPTY_WORLD, labels)
    ensures Always(EMPTY_WORLD, labels, w => StatusHas(w, k, BoundOnlyWhenReady)) <==>
              Throughout(EMPTY_WORLD, labels, k, (w, l) => Respects(w, l, BoundOnlyWhenReady))
  {
    FactsAreKept();
    FactHoldsIffRespected(labels, k, BoundOnlyWhenReady);
  }

  /** In such runs the addresses of the machine, when ready and powered on, are its public ones, one by one. */
  lemma AddressesAlwaysAgree(w: World, labels: seq<Label>, k: Key)
    requires T.Reached(w, labels) && Throughout(EMPTY_WORLD, labels, k, (v, l) => Respects(v, l, AddressesAgree))
    requires k in w.machines && w.machines[k].obj.status.ready && w.machines[k].obj.status.bmcStatus == PoweredOn
    ensures var s := w.machines[k].obj.status;
            |s.addresses| == |s.publicIPs|
            && forall i :: 0 <= i < |s.publicIPs| ==> s.addresses[i] == NodeAddress(ExternalIP, s.publicIPs[i])
  {
    FactsAreKept();
    FactHoldsIffRespected(labels, k, AddressesAgree);
    assert AddressesAgree(w.machines[k].obj.status);
  }

  // ---------- what is kept and what is taken back ----------

  /** Readiness, failure and node are not taken back. */
  predicate KeepsStatus(s: MachineStatus, s': MachineStatus) {
    && (s.ready ==> s'.ready) && (s.failureReason.Some? ==> s'.failureReason.Some?)
    && (s.nodeRef.Some? ==> s'.nodeRef == s.nodeRef)
  }

  /** Either the create reply of this step becomes the status, or readiness, failure and node are kept. */
  lemma OverwrittenOrKept(w: World, l: Label, k: Key)
    requires ServersInv(w) && k in w.machines
    ensures k in Step(w, l).machines
    ensures var s, s' := w.machines[k].obj.status, Step(w, l).machines[k].obj.status;
            if l.key == k && Overwrites(w, l) then s' == l.menv.reply.body.value else KeepsStatus(s, s')
  {
    if l.ReconcileMachine? && l.key == k {
      if MachinePresent(w, k) {
        ReconcileOverwritesOrKeeps(w, k, l.menv, l.made);
      }
    } else {
      OtherStepsLeaveMachine(w, l, k);
    }
  }

  lemma EffectOverwritesOrKeeps(m: Machine, site: M.Site, env: M.MachineEnv)
    requires M.GetMachineID(m) != "" ==> m.providerID.Some?
    ensures var s' := M.ReconcileEffect(m, site, env).obj.status;
            if F.Posted(m, site, env) && Delivered(env.reply) then s' == env.reply.body.value else KeepsStatus(m.status, s')
  {
    if M.GetMachineID(m) == "" {
      WithoutServerStatusIsKept(m, site, env);
    } else {
      ReconcileKeepsStatus(m, site, env);
      if M.ReconcileEffect(m, site, env).call.Some? {
        F.CallsNameTheRecordedServer(m, site, env);
      }
    }
  }

  lemma ReconcileOverwritesOrKeeps(w: World, k: Key, env: M.MachineEnv, made: Option<string>)
    requires ServersInv(w) && MachinePresent(w, k)
    ensures var s, s' := w.machines[k].obj.status, StepMachine(w, k, env, made).machines[k].obj.status;
            if Overwrites(w, ReconcileMachine(k, env, made)) then s' == env.reply.body.value else KeepsStatus(s, s')
  {
    assert MachineOK(w.servers, w.log, k, w.machines[k]);
    EffectOverwritesOrKeeps(w.machines[k].obj, SiteOf(w, k), EnvSeen(w, k, env));
  }

  lemma ServedSendsNoCreate(w: World, k: Key, env: M.MachineEnv)
    requires k in w.machines && M.GetMachineID(w.machines[k].obj) != ""
    ensures !SendsServerCreate(w, k, env)
  {
    if SendsServerCreate(w, k, env) {
      F.CallsNameTheRecordedServer(w.machines[k].obj, SiteOf(w, k), EnvSeen(w, k, env));
    }
  }

  /** Ready falls exactly when a create reply that does not say ready is stored over it. */
  lemma ReadyFallsIff(w: World, l: Label, k: Key)
    requires ServersInv(w) && k in w.machines && w.machines[k].obj.status.ready
    ensures k in Step(w, l).machines
    ensures !Step(w, l).machines[k].obj.status.ready <==>
              l.key == k && Overwrites(w, l) && !l.menv.reply.body.value.ready
  {
    OverwrittenOrKept(w, l, k);
  }

  /** A recorded failure is erased exactly when a create reply without one is stored over it. */
  lemma FailureIsErasedIff(w: World, l: Label, k: Key)
    requires ServersInv(w) && k in w.machines && w.machines[k].obj.status.failureReason.Some?
    ensures k in Step(w, l).machines
    ensures Step(w, l).machines[k].obj.status.failureReason.None? <==>
              l.key == k && Overwrites(w, l) && l.menv.reply.body.value.failureReason.None?
  {
    OverwrittenOrKept(w, l, k);
  }

  /** A node reference changes exactly when a create reply with another, or none, is stored over it. */
  lemma NodeRefChangesIff(w: World, l: Label, k: Key)
    requires ServersInv(w) && k in w.machines && w.machines[k].obj.status.nodeRef.Some?
    ensures k in Step(w, l).machines
    ensures Step(w, l).machines[k].obj.status.nodeRef != w.machines[k].obj.status.nodeRef <==>
              l.key == k && Overwrites(w, l) && l.menv.reply.body.value.nodeRef != w.machines[k].obj.status.nodeRef
  {
    OverwrittenOrKept(w, l, k);
  }

  lemma ServedStepKeepsStatus(w: World, l: Label, k: Key)
    requires ServersInv(w) && k in w.machines && M.GetMachineID(w.machines[k].obj) != ""
    ensures k in Step(w, l).machines && StatusKept(w.machines[k].obj, Step(w, l).machines[k].obj)
    ensures Step(w, l).machines[k].obj.providerID == w.machines[k].obj.providerID
  {
    if l.ReconcileMachine? && l.key == k {
      if MachinePresent(w, k) {
        assert MachineOK(w.servers, w.log, k, w.machines[k]);
        ReconcileKeepsStatus(w.machines[k].obj, SiteOf(w, k), EnvSeen(w, k, l.menv));
        F.RecordedIdentityIsKept(w.machines[k].obj, SiteOf(w, k), EnvSeen(w, k, l.menv));
      }
    } else {
      OtherStepsLeaveMachine(w, l, k);
    }
  }

  /**
   Once a machine has its server, the id, the provider id, Ready, failures, the node and the
   agreement of its addresses are kept over every later run, whatever anybody replies in it.
   */
  lemma {:induction false} ServedMachineEndures(w: World, labels: seq<Label>, k: Key)
    requires ServersInv(w) && ValidRun(w, labels) && k in w.machines && M.GetMachineID(w.machines[k].obj) != ""
    ensures k in Run(w, labels).machines
    ensures var m, m' := w.machines[k].obj, Run(w, labels).machines[k].obj;
            && M.GetMachineID(m') == M.GetMachineID(m) && m'.providerID == m.providerID && StatusKept(m, m')
    decreases |labels|
  {
    if labels != [] {
      IdentityStays(w, labels[0], k);
      ServedStepKeepsStatus(w, labels[0], k);
      StepKeepsServersInv(w, labels[0]);
      ServedMachineEndures(Step(w, labels[0]), labels[1..], k);
    }
  }

  // ---------- readiness ----------

  /** A ready machine has a server, which an earlier 2xx poll reported powered on. */
  predicate ReadySound(log: seq<Entry>, k: Key, m: Machine) {
    m.status.ready ==> M.GetMachineID(m) != "" && PolledOn(log, k, M.GetMachineID(m))
  }

  predicate SoundFor(w: World, k: Key) {
    k in w.machines ==> ReadySound(w.log, k, w.machines[k].obj)
  }

  lemma ReadySoundFramed(log: seq<Entry>, log': seq<Entry>, k: Key, m: Machine)
    requires ReadySound(log, k, m) && |log| <= |log'| && log'[..|log|] == log
    ensures ReadySound(log', k, m)
  {
    assert log' == log + log'[|log|..];
    EvidenceGrows(log, log'[|log|..], k, M.GetMachineID(m));
  }

  /** While a machine has no recorded server there is no poll of whatever its create reply may name. */
  lemma NothingPolledBeforeCreation(w: World, k: Key, env: M.MachineEnv, made: Option<string>)
    requires ServersInv(w) && MachinePresent(w, k) && M.GetMachineID(w.machines[k].obj) == ""
    requires Allowed(w, ReconcileMachine(k, env, made))
    ensures var w' := Step(w, ReconcileMachine(k, env, made));
            !PolledOn(w'.log, k, M.GetMachineID(w'.machines[k].obj))
  {
    var w' := Step(w, ReconcileMachine(k, env, made));
    var m := w.machines[k].obj;
    var site, seen := SiteOf(w, k), EnvSeen(w, k, env);
    F.IdentityComesFromCreateReply(m, site, seen);
    if M.ReconcileEffect(m, site, seen).call.Some? {
      F.CallsNameTheRecordedServer(m, site, seen);
    }
    var id := M.GetMachineID(w'.machines[k].obj);
    assert "" in w.servers ==> ServerOK(w, "");
    assert id !in w.servers;
    forall e | e in w'.log
      ensures !(e.MachineCall? && e.call == GetServer(id))
    {
      if e in w.log {
        assert EntryOK(w.servers, e);
      }
    }
  }

  /**
   Ready is only as sound as the create reply: since the whole status is overwritten, a reconcile
   of a machine without a server takes the readiness of a create reply that is stored, whether or
   not a server gets recorded with it, and no poll has seen any such server powered on.
   */
  lemma CreateReplyCanForgeReady(w: World, k: Key, env: M.MachineEnv, made: Option<string>)
    requires ServersInv(w) && MachinePresent(w, k) && M.GetMachineID(w.machines[k].obj) == ""
    requires Allowed(w, ReconcileMachine(k, env, made))
    ensures var w' := Step(w, ReconcileMachine(k, env, made));
            var m, m' := w.machines[k].obj, w'.machines[k].obj;
            && (m'.status.ready <==>
                  if Overwrites(w, ReconcileMachine(k, env, made)) then env.reply.body.value.ready else m.status.ready)
            && !PolledOn(w'.log, k, M.GetMachineID(m'))
  {
    WithoutServerStatusIsKept(w.machines[k].obj, SiteOf(w, k), EnvSeen(w, k, env));
    NothingPolledBeforeCreation(w, k, env, made);
  }

  lemma ServerKeepsReadySound(w: World, k: Key, env: M.MachineEnv, made: Option<string>)
    requires ServersInv(w) && MachinePresent(w, k) && ReadySound(w.log, k, w.machines[k].obj)
    requires M.GetMachineID(w.machines[k].obj) != ""
    ensures !SendsServerCreate(w, k, env)
    ensures ReadySound(StepMachine(w, k, env, made).log, k, StepMachine(w, k, env, made).machines[k].obj)
  {
    var m := w.machines[k].obj;
    var site, seen := SiteOf(w, k), EnvSeen(w, k, env);
    var eff := M.ReconcileEffect(m, site, seen);
    var log' := StepMachine(w, k, env, made).log;
    assert MachineOK(w.servers, w.log, k, w.machines[k]);
    LogOnlyGrows(w, ReconcileMachine(k, env, made));
    ReadySoundFramed(w.log, log', k, m);
    ReadinessIsEarned(m, site, seen);
    F.RecordedIdentityIsKept(m, site, seen);
    if eff.call.Some? {
      F.CallsNameTheRecordedServer(m, site, seen);
      assert MachineCall(k, eff.call.value, env.reply) in log';
    }
  }

  /** A reconcile keeps Ready sound exactly when it stores no create reply that says ready. */
  lemma ReconcileKeepsReadySoundIff(w: World, k: Key, env: M.MachineEnv, made: Option<string>)
    requires ServersInv(w) && MachinePresent(w, k) && ReadySound(w.log, k, w.machines[k].obj)
    requires Allowed(w, ReconcileMachine(k, env, made))
    ensures ReadySound(StepMachine(w, k, env, made).log, k, StepMachine(w, k, env, made).machines[k].obj) <==>
              Clean(w, ReconcileMachine(k, env, made))
  {
    if M.GetMachineID(w.machines[k].obj) == "" {
      CreateReplyCanForgeReady(w, k, env, made);
    } else {
      ServerKeepsReadySound(w, k, env, made);
    }
  }

  lemma StepKeepsReadySoundIff(w: World, l: Label, k: Key)
    requires ServersInv(w) && SoundFor(w, k) && Allowed(w, l)
    ensures SoundFor(Step(w, l), k) <==> (l.key == k ==> Clean(w, l))
  {
    if k !in w.machines {
      if k in Step(w, l).machines {
        NewMachinesArePristine(w, l, k);
      }
    } else if l.ReconcileMachine? && l.key == k && MachinePresent(w, k) {
      ReconcileKeepsReadySoundIff(w, k, l.menv, l.made);
    } else {
      LogOnlyGrows(w, l);
      ReadySoundFramed(w.log, Step(w, l).log, k, w.machines[k].obj);
      if !(l.ReconcileMachine? && l.key == k) {
        OtherStepsLeaveMachine(w, l, k);
      }
    }
  }

  /** Ready is sound for a machine in every state of a run exactly when no stored create reply of its own says ready. */
  lemma ReadyIsSoundIffClean(labels: seq<Label>, k: Key)
    requires ValidRun(EMPTY_WORLD, labels)
    ensures Always(EMPTY_WORLD, labels, w => SoundFor(w, k)) <==> Throughout(EMPTY_WORLD, labels, k, Clean)
    ensures Throughout(EMPTY_WORLD, labels, k, Clean) ==> SoundFor(Run(EMPTY_WORLD, labels), k)
  {
    ServersInvIsKept();
    forall v, l | ServersInv(v) && SoundFor(v, k) && Allowed(v, l)
      ensures SoundFor(Step(v, l), k) <==> (l.key == k ==> Clean(v, l))
    {
      StepKeepsReadySoundIff(v, l, k);
    }
    AlwaysIffThroughout(EMPTY_WORLD, labels, k, ServersInv, w => SoundFor(w, k), Clean);
  }

  /** Ready is sound: some earlier 2xx poll of that very server reported it powered on. */
  lemma ReadyMeansPolledOn(w: World, labels: seq<Label>, k: Key)
    requires T.Reached(w, labels) && Throughout(EMPTY_WORLD, labels, k, Clean)
    requires k in w.machines && w.machines[k].obj.status.ready
    ensures M.GetMachineID(w.machines[k].obj) != ""
    ensures PolledOn(w.log, k, M.GetMachineID(w.machines[k].obj))
  {
    ReadyIsSoundIffClean(labels, k);
  }

  // ---------- refinement ----------

  datatype Phase =
    | Absent
    | NoServer
    | Provisioned(id: string, failed: bool)
    | Ready(id: string, failed: bool, node: Option<NodeRef>)
    | Gone

  function PhaseOfSlot(slot: MachineSlot): Phase {
    var s := slot.obj.status;
    var id := M.GetMachineID(slot.obj);
    if slot.gone then Gone
    else if s.ready then Ready(id, s.failureReason.Some?, s.nodeRef)
    else if id != "" then Provisioned(id, s.failureReason.Some?)
    else NoServer
  }

  function PhaseOf(w: World, k: Key): Phase {
    if k in w.machines then PhaseOfSlot(w.machines[k]) else Absent
  }

  /** One step of the automaton: identity is write-once, readiness, failure and the node are kept. */
  predicate PhaseNext(p: Phase, q: Phase) {
    p == q ||
    match p
    case Absent => q == NoServer
    case NoServer => q.Gone? || (q.Provisioned? && q.id != "")
    case Provisioned(id, failed) =>
      q.Gone? || ((q.Provisioned? || q.Ready?) && q.id == id && (failed ==> q.failed))
    case Ready(id, failed, node) =>
      q.Gone? || (q.Ready? && q.id == id && (failed ==> q.failed) && (node.Some? ==> q.node == node))
    case Gone => false
  }

  /** A ready machine has its server. */
  predicate ReadyHasServer(w: World, k: Key) {
    k in w.machines && w.machines[k].obj.status.ready ==> M.GetMachineID(w.machines[k].obj) != ""
  }

  /**
   A reconcile of a machine, its patch arriving whole, in part or not at all, is a step of the
   automaton exactly when it stores no create reply that says ready.
   */
  lemma ReconcileRefinesLifecycleIff(slot: MachineSlot, site: M.Site, env: M.MachineEnv)
    requires M.GetMachineID(slot.obj) != "" ==> slot.obj.providerID.Some?
    requires slot.obj.status.ready ==> M.GetMachineID(slot.obj) != ""
    ensures var m' := M.Persisted(slot.obj, M.ReconcileEffect(slot.obj, site, env).obj, env.patch);
            !slot.gone ==>
              (PhaseNext(PhaseOfSlot(slot), PhaseOfSlot(slot.(obj := m'))) <==>
                 (F.Posted(slot.obj, site, env) && Delivered(env.reply) && env.patch.status ==> !env.reply.body.value.ready))
  {
    var m := slot.obj;
    if M.GetMachineID(m) != "" {
      F.RecordedIdentityIsKept(m, site, env);
      ReconcileKeepsStatus(m, site, env);
      if M.ReconcileEffect(m, site, env).call.Some? {
        F.CallsNameTheRecordedServer(m, site, env);
      }
    } else {
      WithoutServerStatusIsKept(m, site, env);
    }
  }

  lemma VanishingIsAStep(slot: MachineSlot)
    requires slot.gone
    ensures forall p: Phase :: !p.Absent? ==> PhaseNext(p, PhaseOfSlot(slot))
  {
  }

  lemma OtherStepsRefineLifecycle(w: World, l: Label, k: Key)
    requires Allowed(w, l) && !(l.ReconcileMachine? && l.key == k)
    ensures PhaseNext(PhaseOf(w, k), PhaseOf(Step(w, l), k))
  {
    var w' := Step(w, l);
    match l
    case RegisterMachine(j, p, m) =>
    case MarkMachineDeleted(j) =>
    case EditMachineFinalizers(j, fs) =>
    case ReconcileMachine(j, _, _) => assert k in w.machines ==> w'.machines[k] == w.machines[k];
    case _ => assert w'.machines == w.machines;
  }

  lemma CreatingMachineStays(w: World, k: Key, env: M.MachineEnv, made: Option<string>)
    requires SendsServerCreate(w, k, env)
    ensures !Step(w, ReconcileMachine(k, env, made)).machines[k].gone
  {
    F.CallsNameTheRecordedServer(w.machines[k].obj, SiteOf(w, k), EnvSeen(w, k, env));
  }

  /**
   Every step of the two controllers and of the environment is a step of the automaton or a
   stutter, except exactly the reconcile of that machine that stores a create reply saying ready.
   */
  lemma StepRefinesLifecycleIff(w: World, l: Label, k: Key)
    requires ServersInv(w) && ReadyHasServer(w, k) && Allowed(w, l)
    ensures PhaseNext(PhaseOf(w, k), PhaseOf(Step(w, l), k)) <==> (l.key == k ==> Clean(w, l))
  {
    if l.ReconcileMachine? && l.key == k {
      if MachinePresent(w, k) {
        assert MachineOK(w.servers, w.log, k, w.machines[k]);
        ReconcileRefinesLifecycleIff(w.machines[k], SiteOf(w, k), EnvSeen(w, k, l.menv));
        var slot' := Step(w, l).machines[k];
        if slot'.gone {
          VanishingIsAStep(slot');
          if SendsServerCreate(w, k, l.menv) {
            CreatingMachineStays(w, k, l.menv, l.made);
          }
        }
      }
    } else {
      OtherStepsRefineLifecycle(w, l, k);
    }
  }

  /** Reachability in the automaton. */
  predicate Leads(p: Phase, q: Phase) {
    match p
    case Absent => true
    case NoServer => !q.Absent?
    case Provisioned(id, failed) =>
      q.Gone? || ((q.Provisioned? || q.Ready?) && q.id == id && (failed ==> q.failed))
    case Ready(id, failed, node) =>
      q.Gone? || (q.Ready? && q.id == id && (failed ==> q.failed) && (node.Some? ==> q.node == node))
    case Gone => q.Gone?
  }

  lemma LeadsExtends(p: Phase, q: Phase, r: Phase)
    requires PhaseNext(p, q) && Leads(q, r)
    ensures Leads(p, r)
  {
  }

  lemma StepKeepsReadyHasServer(w: World, l: Label, k: Key)
    requires ServersInv(w) && ReadyHasServer(w, k) && Allowed(w, l) && (l.key == k ==> Clean(w, l))
    ensures ReadyHasServer(Step(w, l), k)
  {
    if k !in w.machines {
      if k in Step(w, l).machines {
        NewMachinesArePristine(w, l, k);
      }
    } else {
      IdentityStays(w, l, k);
      if !(l.ReconcileMachine? && l.key == k) {
        OtherStepsLeaveMachine(w, l, k);
      } else if MachinePresent(w, k) && M.GetMachineID(w.machines[k].obj) == "" {
        WithoutServerStatusIsKept(w.machines[k].obj, SiteOf(w, k), EnvSeen(w, k, l.menv));
      }
    }
  }

  /**
   Over any run without a stored create reply of its own that says ready, a machine moves along
   the automaton: the server stays, and from then on Ready never falls and failures and node
   bindings are never taken back.
   */
  lemma {:induction false} LifecycleIsMonotone(w: World, labels: seq<Label>, k: Key)
    requires ServersInv(w) && ReadyHasServer(w, k) && ValidRun(w, labels) && Throughout(w, labels, k, Clean)
    ensures Leads(PhaseOf(w, k), PhaseOf(Run(w, labels), k))
    decreases |labels|
  {
    if labels != [] {
      var w' := Step(w, labels[0]);
      StepRefinesLifecycleIff(w, labels[0], k);
      StepKeepsServersInv(w, labels[0]);
      StepKeepsReadyHasServer(w, labels[0], k);
      LifecycleIsMonotone(w', labels[1..], k);
      LeadsExtends(PhaseOf(w, k), PhaseOf(w', k), PhaseOf(Run(w, labels), k));
    }
  }
}
