/**
 What a reconcile of a machine sends, stores, reports and returns, said of the machine, its
 surroundings and the reply alone. Nothing here speaks of the functions MachineModel is made of.
 */
module MachineOutcomes {
  import opened Wrappers
  import opened Api
  import opened TransitionSystem
  import M = MachineModel
  import F = MachineFacts

  lemma AcceptedCodes<T>(reply: Reply<T>)
    ensures Accepted(reply) <==> Answered(reply, {200, 201, 202, 204})
  {
  }

  // ---------- which call is sent ----------

  /** A live machine whose surroundings are ready. */
  predicate Proceeds(m: Machine, site: M.Site, env: M.MachineEnv) {
    !m.deleting && env.gate == M.Open && site.infrastructureReady && env.secret != M.NameMissing
  }

  predicate Creates(m: Machine, site: M.Site, env: M.MachineEnv) {
    && Proceeds(m, site, env) && env.secret == M.Available && M.GetMachineID(m) == ""
    && !(site.controlPlane && site.vip == NONE && site.allocationID == "")
  }

  predicate Polls(m: Machine, site: M.Site, env: M.MachineEnv) {
    Proceeds(m, site, env) && M.GetMachineID(m) != ""
  }

  predicate Deletes(m: Machine, env: M.MachineEnv) {
    m.deleting && env.gate != M.OwnerLookupFailed && env.gate != M.OwnerMissing
  }

  predicate Deprovisions(m: Machine, env: M.MachineEnv) {
    Deletes(m, env) && M.GetMachineID(m) != "" && m.status.bmcStatus != Orphaned
  }

  /** Exactly when each call is sent, and what it names. */
  lemma CallsIff(m: Machine, site: M.Site, env: M.MachineEnv)
    ensures forall c :: M.ReconcileEffect(m, site, env).call == Some(c) <==>
                          match c
                          case PostServer(blocks) =>
                            Creates(m, site, env)
                            && blocks == (if site.controlPlane && site.vip == NONE then [site.allocationID] else [])
                          case GetServer(id) => Polls(m, site, env) && id == M.GetMachineID(m)
                          case Deprovision(id) => Deprovisions(m, env) && id == M.GetMachineID(m)
                          case _ => false
  {
  }

  /** In runs a server is requested exactly for a live machine without one that finds everything it needs. */
  lemma ServerIsRequestedIff(w: World, k: Key, env: M.MachineEnv)
    ensures SendsServerCreate(w, k, env) <==>
              && MachinePresent(w, k) && !w.machines[k].obj.deleting && M.GetMachineID(w.machines[k].obj) == ""
              && env.gate == M.Open && env.secret == M.Available
              && var p := w.machines[k].place;
                 && ClusterPresent(w, p.cluster) && p.cluster in w.infrastructureReady
                 && var c := w.clusters[p.cluster].obj;
                    p.controlPlane && c.vip == NONE ==> Lookup(c.annotations, IPAllocationID) != ""
  {
    if MachinePresent(w, k) {
      CallsIff(w.machines[k].obj, SiteOf(w, k), EnvSeen(w, k, env));
      var call := MachineEffectIn(w, k, env).call;
      if Creates(w.machines[k].obj, SiteOf(w, k), EnvSeen(w, k, env)) {
        var blocks := if SiteOf(w, k).controlPlane && SiteOf(w, k).vip == NONE then [SiteOf(w, k).allocationID] else [];
        assert call == Some(PostServer(blocks));
      }
    }
  }

  // ---------- reconciles that send nothing ----------

  /** A reconcile that stops before it asks the cloud changes the finalizer at most, and reports nothing. */
  lemma SilentReconcile(m: Machine, site: M.Site, env: M.MachineEnv)
    requires !Creates(m, site, env) && !Polls(m, site, env) && !Deprovisions(m, env)
    ensures var eff := M.ReconcileEffect(m, site, env);
            && eff.call == None && eff.events == [] && eff.nodeProviderID == None
            && eff.obj == m.(finalizers := if Deletes(m, env) then m.finalizers - {MachineFinalizer}
                                           else if !m.deleting && env.gate == M.Open then m.finalizers + {MachineFinalizer}
                                           else m.finalizers)
            && (eff.result == Panicked <==> !m.deleting && env.gate == M.InfrastructureRefMissing)
            && (eff.result == Failed(NoRequeue) <==>
                  || env.gate == M.OwnerLookupFailed
                  || (!m.deleting && env.gate == M.ClusterLookupFailed)
                  || (Proceeds(m, site, env) && env.secret != M.Available))
            && (eff.result.Panicked? || eff.result == Failed(NoRequeue) || eff.result == Done(NoRequeue))
  {
  }

  /** While its BMCCluster is not there, nothing at all is done for a live machine. */
  lemma WithoutClusterNothingHappens(w: World, k: Key, env: M.MachineEnv)
    requires MachinePresent(w, k) && !w.machines[k].obj.deleting && !ClusterPresent(w, w.machines[k].place.cluster)
    ensures var eff := MachineEffectIn(w, k, env);
            eff.obj == w.machines[k].obj && eff.call == None && eff.events == [] && eff.nodeProviderID == None
  {
  }

  // ---------- the create path ----------

  /** What a create leaves of the machine. */
  lemma CreateStores(m: Machine, site: M.Site, env: M.MachineEnv)
    requires Creates(m, site, env)
    ensures var m' := M.ReconcileEffect(m, site, env).obj;
            && m'.finalizers == m.finalizers + {MachineFinalizer} && !m'.deleting
            && if Delivered(env.reply) then
                 var s := env.reply.body.value;
                 && m'.status == s && m'.providerID == Some("bmc://servers/" + s.bmcServerID)
                 && (m'.annotations.Some? <==> m.annotations.Some?)
                 && (m.annotations.Some? ==> m'.annotations == Some(m.annotations.value[ServerID := s.bmcServerID]))
               else
                 && m'.providerID == m.providerID && m'.annotations == m.annotations
                 && m'.status == if Answered(env.reply, {400, 401, 403, 409}) && m.status.bmcStatus != Irreconcilable
                                 then m.status.(bmcStatus := Irreconcilable, failureReason := Some(InvalidConfiguration),
                                                failureMessage := Some(CreateCode(env.reply.code)))
                                 else m.status
  {
  }

  /** What a create reports and how it returns: exactly which answers are retried, when, and by whom. */
  lemma CreateReturns(m: Machine, site: M.Site, env: M.MachineEnv)
    requires Creates(m, site, env)
    ensures var eff := M.ReconcileEffect(m, site, env);
            var r := env.reply;
            && eff.events == (if Delivered(r) then [Created]
                              else if Answered(r, {400, 401, 403, 409}) then
                                if m.status.bmcStatus == Irreconcilable then [] else [CreateErrorPermanent]
                              else if Answered(r, {406}) then [CreateErrorInventory]
                              else if Answered(r, {500}) then [CreateFailure]
                              else [CreateError])
            && (eff.result == Panicked <==> Delivered(r) && m.annotations.None?)
            && (eff.result == Done(After1Min) <==> Delivered(r) && m.annotations.Some?)
            && (eff.result == Done(After2Min) <==> Answered(r, {409, 500}))
            && (eff.result == Done(After5Min) <==> Answered(r, {406}))
            && (eff.result == Done(NoRequeue) <==> Answered(r, {400, 401, 403}))
            && (eff.result == Failed(NoRequeue) <==> !Delivered(r) && !Answered(r, {400, 401, 403, 406, 409, 500}))
  {
  }

  // ---------- the poll path ----------

  predicate ReportsOn(env: M.MachineEnv) {
    Delivered(env.reply) && env.reply.body.value.bmcStatus == PoweredOn
  }

  /** This poll finds the node and dereferences a nil provider id. */
  predicate MeetsNil(m: Machine, env: M.MachineEnv) {
    && ReportsOn(env) && m.status.nodeRef.None? && m.providerID.None?
    && env.node.NodeFound? && env.node.write != M.HelperFailed
  }

  /** The poll takes the reported server over. */
  predicate Takes(m: Machine, env: M.MachineEnv) {
    && Delivered(env.reply)
    && (|| env.reply.body.value.bmcStatus != m.status.bmcStatus
        || (ReportsOn(env) && !m.status.ready && !MeetsNil(m, env)))
  }

  /** Everything BMC says about a server, field by field, apart from its status. */
  predicate SameServer(s: MachineStatus, t: MachineStatus) {
    && s.bmcServerID == t.bmcServerID && s.cpu == t.cpu && s.cpuCount == t.cpuCount && s.cpuCores == t.cpuCores
    && s.cpuFrequency == t.cpuFrequency && s.ram == t.ram && s.storage == t.storage
    && s.privateIPs == t.privateIPs && s.publicIPs == t.publicIPs
  }

  predicate ExternalImage(addresses: seq<NodeAddress>, ips: seq<string>) {
    |addresses| == |ips| && forall i :: 0 <= i < |ips| ==> addresses[i] == NodeAddress(ExternalIP, ips[i])
  }

  lemma BindingMeetsNilIff(m: Machine, hostname: string, node: M.NodeLookup)
    ensures var b := M.Bound(m, hostname, node);
            && (b.panicked <==>
                  m.status.nodeRef.None? && m.providerID.None? && node.NodeFound? && node.write != M.HelperFailed)
            && b.obj.status.nodeRef == if m.status.nodeRef.None? && node.NodeFound?
                                       then Some(NodeRef(hostname, node.uid)) else m.status.nodeRef
  {
  }

  /** The description a delivered poll leaves. */
  predicate Describes(m: Machine, s: MachineStatus, taken: bool, s': MachineStatus) {
    if taken then
      && SameServer(s', s) && s'.bmcStatus == (if s.bmcStatus == Error then Irreconcilable else s.bmcStatus)
      && (if s.bmcStatus == PoweredOn then s'.ready && ExternalImage(s'.addresses, s.publicIPs)
          else s'.ready == m.status.ready && s'.addresses == m.status.addresses)
    else
      && SameServer(s', m.status) && s'.bmcStatus == m.status.bmcStatus
      && s'.ready == m.status.ready && s'.addresses == m.status.addresses
  }

  lemma OtherPollDescribes(m: Machine, call: Call, hostname: string, s: MachineStatus, node: M.NodeLookup)
    requires s.bmcStatus != PoweredOn
    ensures Describes(m, s, s.bmcStatus != m.status.bmcStatus, M.PolledEffect(m, call, hostname, s, node).obj.status)
  {
  }

  lemma PoweredOnPollDescribes(m: Machine, call: Call, hostname: string, s: MachineStatus, node: M.NodeLookup)
    requires s.bmcStatus == PoweredOn
    ensures var panics := m.status.nodeRef.None? && m.providerID.None? && node.NodeFound? && node.write != M.HelperFailed;
            var taken := s.bmcStatus != m.status.bmcStatus || (!m.status.ready && !panics);
            Describes(m, s, taken, M.PolledEffect(m, call, hostname, s, node).obj.status)
  {
    var m1 := if m.status.bmcStatus != s.bmcStatus then M.Updated(m, s) else m;
    F.BoundChangesNodeOnly(m1, hostname, node);
    BindingMeetsNilIff(m1, hostname, node);
  }

  lemma FailedPollVerdict(m: Machine, hostname: string, reply: Reply<MachineStatus>, node: M.NodeLookup)
    requires !Delivered(reply)
    ensures M.SyncEffect(m, hostname, reply, node).obj.status.bmcStatus ==
              if Verdict(reply).Some? then Verdict(reply).value else m.status.bmcStatus
  {
  }

  lemma FailedPollDescribes(m: Machine, hostname: string, reply: Reply<MachineStatus>, node: M.NodeLookup)
    requires !Delivered(reply)
    ensures var s' := M.SyncEffect(m, hostname, reply, node).obj.status;
            && SameServer(s', m.status) && s'.ready == m.status.ready
            && s'.addresses == m.status.addresses && s'.nodeRef == m.status.nodeRef
  {
  }

  lemma FailedPollJudges(m: Machine, hostname: string, reply: Reply<MachineStatus>, node: M.NodeLookup)
    requires !Delivered(reply)
    ensures var s' := M.SyncEffect(m, hostname, reply, node).obj.status;
            if Answered(reply, {400, 401}) && m.status.bmcStatus != Irreconcilable then
              s'.failureReason == Some(InvalidConfiguration) && s'.failureMessage == Some(ReadCode(reply.code))
            else s'.failureReason == m.status.failureReason && s'.failureMessage == m.status.failureMessage
  {
  }

  /** What a poll leaves of the description of the server: the reply's own, field by field, or what was recorded. */
  lemma PollDescribes(m: Machine, hostname: string, env: M.MachineEnv)
    ensures var s' := M.SyncEffect(m, hostname, env.reply, env.node).obj.status;
            if Takes(m, env) then
              var s := env.reply.body.value;
              && SameServer(s', s) && s'.bmcStatus == (if s.bmcStatus == Error then Irreconcilable else s.bmcStatus)
              && (if s.bmcStatus == PoweredOn then s'.ready && ExternalImage(s'.addresses, s.publicIPs)
                  else s'.ready == m.status.ready && s'.addresses == m.status.addresses)
            else
              && SameServer(s', m.status) && s'.ready == m.status.ready && s'.addresses == m.status.addresses
              && s'.bmcStatus == (if !Delivered(env.reply) && Verdict(env.reply).Some? then Verdict(env.reply).value
                                  else m.status.bmcStatus)
  {
    var call := GetServer(M.GetMachineID(m));
    if !Delivered(env.reply) {
      FailedPollDescribes(m, hostname, env.reply, env.node);
      FailedPollVerdict(m, hostname, env.reply, env.node);
    } else if ReportsOn(env) {
      PoweredOnPollDescribes(m, call, hostname, env.reply.body.value, env.node);
    } else {
      OtherPollDescribes(m, call, hostname, env.reply.body.value, env.node);
    }
  }

  lemma DeliveredPollJudges(m: Machine, call: Call, hostname: string, s: MachineStatus, node: M.NodeLookup)
    ensures var s' := M.PolledEffect(m, call, hostname, s, node).obj.status;
            && (if s.bmcStatus == Error && m.status.bmcStatus != Error then
                  s'.failureReason == Some(CreateMachineError) && s'.failureMessage == Some(Unrecoverable)
                else s'.failureReason == m.status.failureReason && s'.failureMessage == m.status.failureMessage)
            && s'.nodeRef == if s.bmcStatus == PoweredOn && m.status.nodeRef.None? && node.NodeFound?
                             then Some(NodeRef(hostname, node.uid)) else m.status.nodeRef
  {
    var m1 := if m.status.bmcStatus != s.bmcStatus then M.Updated(m, s) else m;
    F.BoundChangesNodeOnly(m1, hostname, node);
    BindingMeetsNilIff(m1, hostname, node);
  }

  /** The failure and the node a poll leaves, and that it touches nothing but the status. */
  lemma PollJudges(m: Machine, hostname: string, env: M.MachineEnv)
    ensures var m' := M.SyncEffect(m, hostname, env.reply, env.node).obj;
            var s, s' := m.status, m'.status;
            && m' == m.(status := s')
            && (if Takes(m, env) && env.reply.body.value.bmcStatus == Error then
                  s'.failureReason == Some(CreateMachineError) && s'.failureMessage == Some(Unrecoverable)
                else if Answered(env.reply, {400, 401}) && s.bmcStatus != Irreconcilable then
                  s'.failureReason == Some(InvalidConfiguration) && s'.failureMessage == Some(ReadCode(env.reply.code))
                else s'.failureReason == s.failureReason && s'.failureMessage == s.failureMessage)
            && s'.nodeRef == if ReportsOn(env) && s.nodeRef.None? && env.node.NodeFound?
                             then Some(NodeRef(hostname, env.node.uid)) else s.nodeRef
  {
    F.SyncTouchesStatusOnly(m, hostname, env.reply, env.node);
    if Delivered(env.reply) {
      DeliveredPollJudges(m, GetServer(M.GetMachineID(m)), hostname, env.reply.body.value, env.node);
    } else {
      FailedPollDescribes(m, hostname, env.reply, env.node);
      FailedPollJudges(m, hostname, env.reply, env.node);
    }
  }

  /** What binding the node is reported as. */
  function NodeReport(m: Machine, node: M.NodeLookup): seq<Reason> {
    if !node.NodeFound? then [FailureNodeRef]
    else if node.write == M.HelperFailed || (node.write == M.PatchFailed && m.providerID.Some?)
    then [SuccessNodeRef, FailureNodeRef]
    else [SuccessNodeRef]
  }

  /** What a poll reports: changes of the recorded status, the binding of the node, and answers that mean nothing. */
  lemma PollReports(m: Machine, hostname: string, env: M.MachineEnv)
    ensures var events := M.SyncEffect(m, hostname, env.reply, env.node).events;
            var r, recorded := env.reply, m.status.bmcStatus;
            if Delivered(r) then
              events == (if r.body.value.bmcStatus != recorded then [StatusChange] else [])
                        + (if ReportsOn(env) && m.status.nodeRef.None? then NodeReport(m, env.node) else [])
            else if Verdict(r).Some? && Verdict(r).value == recorded then events == []
            else if !r.Response? then events == [StatusChange]
            else if Answered(r, {403}) then events == [ResourceOrphaned]
            else events == [PollFailure]
  {
  }

  /** How a poll returns: exactly which answers are polled again, when, and by whom. */
  lemma PollReturns(m: Machine, hostname: string, env: M.MachineEnv)
    ensures var result := M.SyncEffect(m, hostname, env.reply, env.node).result;
            var r := env.reply;
            && (result == Panicked <==> MeetsNil(m, env))
            && (result == Done(After1Min) <==> Delivered(r) && r.body.value.bmcStatus != Error && !ReportsOn(env))
            && (result == Done(After2Min) <==> ReportsOn(env) && !MeetsNil(m, env))
            && (result == Done(After5Min) <==> Answered(r, {400, 401, 500}))
            && (result == Done(NoRequeue) <==> Answered(r, {403}) || (Delivered(r) && r.body.value.bmcStatus == Error))
            && (result == Failed(After2Min) <==> Outage(r) && !Answered(r, {500}))
            && (result == Failed(NoRequeue) <==> !Delivered(r) && !Outage(r) && !Answered(r, {400, 401, 403}))
  {
  }

  /** A polling reconcile is its poll, after the finalizer has been added. */
  lemma PollingReconcile(m: Machine, site: M.Site, env: M.MachineEnv)
    requires Polls(m, site, env)
    ensures M.ReconcileEffect(m, site, env) ==
              M.SyncEffect(m.(finalizers := m.finalizers + {MachineFinalizer}), site.hostname, env.reply, env.node)
  {
  }

  // ---------- the delete path ----------

  /**
   What a delete reconcile with a server to deprovision leaves: no finalizer of its own, and a status
   that is refused exactly on 400 and 401 and denied exactly on 403.
   */
  lemma DeprovisionStores(m: Machine, site: M.Site, env: M.MachineEnv)
    requires Deprovisions(m, env)
    ensures var m' := M.ReconcileEffect(m, site, env).obj;
            && m' == m.(finalizers := m.finalizers - {MachineFinalizer}, status := m'.status)
            && m'.status == m.status.(bmcStatus := m'.status.bmcStatus)
            && (m'.status.bmcStatus == Orphaned <==> Answered(env.reply, {403}))
            && (m'.status.bmcStatus == Irreconcilable <==>
                  Answered(env.reply, {400, 401}) || (m.status.bmcStatus == Irreconcilable && !Answered(env.reply, {403})))
            && (!Answered(env.reply, {400, 401, 403}) ==> m'.status.bmcStatus == m.status.bmcStatus)
  {
  }

  lemma DeprovisionReturns(m: Machine, site: M.Site, env: M.MachineEnv)
    requires Deprovisions(m, env)
    ensures var eff := M.ReconcileEffect(m, site, env);
            var r := env.reply;
            && eff.nodeProviderID == None
            && eff.events == (if Accepted(r) then [CleanupSuccess]
                              else if Answered(r, {400, 401, 403, 500}) then [] else [CleanupError])
            && (eff.result == Done(NoRequeue) <==> Accepted(r))
            && (eff.result == Done(After2Min) <==> Answered(r, {400, 401, 403, 500}))
            && (eff.result == Failed(NoRequeue) <==> !r.Response?)
            && (eff.result == Failed(After2Min) <==> r.Response? && !Accepted(r) && !Answered(r, {400, 401, 403, 500}))
  {
  }

  // ---------- nil maps ----------

  /** A machine with a nil annotation map asks for a server every time, and panics on every one it gets. */
  lemma NilMapCreates(m: Machine, site: M.Site, env: M.MachineEnv)
    requires m.annotations.None? && Proceeds(m, site, env) && env.secret == M.Available
    requires site.controlPlane && site.vip == NONE ==> site.allocationID != ""
    ensures var eff := M.ReconcileEffect(m, site, env);
            && eff.call.Some? && eff.call.value.PostServer? && eff.obj.annotations.None?
            && (eff.result == Panicked <==> Delivered(env.reply))
  {
  }

  // ---------- what is stored ----------

  /** Metadata and spec are stored exactly with the one request of the deferred patch, the status exactly with the other. */
  lemma PatchPartsArriveAlone(w: World, k: Key, env: M.MachineEnv, made: Option<string>)
    requires MachinePresent(w, k)
    ensures var m, m' := w.machines[k].obj, MachineEffectIn(w, k, env).obj;
            var stored := Step(w, ReconcileMachine(k, env, made)).machines[k].obj;
            && stored.deleting == m.deleting
            && stored.finalizers == (if env.patch.meta then m'.finalizers else m.finalizers)
            && stored.annotations == (if env.patch.meta then m'.annotations else m.annotations)
            && stored.providerID == (if env.patch.meta then m'.providerID else m.providerID)
            && stored.status == (if env.patch.status then m'.status else m.status)
  {
  }

  // ---------- names ----------

  /** A name without dots and slashes is its own host name, and every host name is such a name. */
  lemma HostnameIsKeptIff(name: string)
    ensures M.GetHostname(name) == name <==> '.' !in name && '/' !in name
    ensures var h := M.GetHostname(name); '.' !in h && '/' !in h && M.GetHostname(h) == h
  {
    var h := M.GetHostname(name);
    assert |h| == |name| && |M.GetHostname(h)| == |h|;
    if h == name {
      assert forall i :: 0 <= i < |name| ==> h[i] == name[i];
    }
  }
}
