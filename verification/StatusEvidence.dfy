/**
 Every recorded status has its evidence in the log: over all runs, a machine or a cluster is only
 ever recorded in a status that one of its own calls was answered with.
 */
module StatusEvidence {
  import opened Wrappers
  import opened Api
  import opened TransitionSystem
  import S = ServerInvariant
  import I = BlockInvariant
  import L = MachineLifecycle
  import B = BlockTheorems
  import T = ServerTheorems
  import M = MachineModel
  import C = ClusterModel
  import F = MachineFacts
  import O = MachineOutcomes
  import P = ClusterOutcomes

  // ---------- machines ----------

  /** This call, so answered, makes a machine with that server be recorded in status s. */
  predicate Explains(call: Call, reply: Reply<MachineStatus>, id: string, s: BMCStatus) {
    match call
    case PostServer(_) =>
      || (Delivered(reply) && reply.body.value.bmcStatus == s)
      || (s == Irreconcilable && Answered(reply, {400, 401, 403, 409}))
    case GetServer(i) =>
      && i == id
      && (|| (Delivered(reply) && reply.body.value.bmcStatus == s)
          || (s == Irreconcilable && Delivered(reply) && reply.body.value.bmcStatus == Error)
          || (s == Stale && Outage(reply))
          || (s == Orphaned && Answered(reply, {403}))
          || (s == Irreconcilable && Answered(reply, {400, 401})))
    case Deprovision(i) =>
      i == id && ((s == Orphaned && Answered(reply, {403})) || (s == Irreconcilable && Answered(reply, {400, 401})))
    case _ => false
  }

  predicate Evidence(log: seq<Entry>, k: Key, id: string, s: BMCStatus) {
    s == EMPTY_MACHINE_STATUS.bmcStatus
    || exists e :: e in log && e.MachineCall? && e.machine == k && Explains(e.call, e.serverReply, id, s)
  }

  predicate Explained(w: World, k: Key) {
    k in w.machines ==>
      Evidence(w.log, k, M.GetMachineID(w.machines[k].obj), w.machines[k].obj.status.bmcStatus)
  }

  /** A reconcile leaves the recorded status or one its call explains. */
  lemma ReconcileExplains(m: Machine, site: M.Site, env: M.MachineEnv)
    ensures var eff := M.ReconcileEffect(m, site, env);
            var s' := eff.obj.status.bmcStatus;
            s' == m.status.bmcStatus || (eff.call.Some? && Explains(eff.call.value, env.reply, M.GetMachineID(m), s'))
  {
    var call := M.ReconcileEffect(m, site, env).call;
    O.CallsIff(m, site, env);
    if O.Creates(m, site, env) {
      O.CreateStores(m, site, env);
      assert call == Some(PostServer(if site.controlPlane && site.vip == NONE then [site.allocationID] else []));
    } else if O.Polls(m, site, env) {
      O.PollingReconcile(m, site, env);
      O.PollDescribes(m.(finalizers := m.finalizers + {MachineFinalizer}), site.hostname, env);
      assert call == Some(GetServer(M.GetMachineID(m)));
    } else if O.Deprovisions(m, env) {
      O.DeprovisionStores(m, site, env);
      assert call == Some(Deprovision(M.GetMachineID(m)));
    } else {
      O.SilentReconcile(m, site, env);
    }
  }

  lemma EvidenceGrows(log: seq<Entry>, more: seq<Entry>, k: Key, id: string, s: BMCStatus)
    requires Evidence(log, k, id, s)
    ensures Evidence(log + more, k, id, s)
  {
    assert forall e :: e in log ==> e in log + more;
  }

  /** Evidence gathered before a machine had a server names no server, so it holds under any id. */
  lemma EvidenceWithoutServer(w: World, k: Key, id: string, s: BMCStatus)
    requires S.ServersInv(w) && Evidence(w.log, k, "", s)
    ensures Evidence(w.log, k, id, s)
  {
    if s != EMPTY_MACHINE_STATUS.bmcStatus {
      var e :| e in w.log && e.MachineCall? && e.machine == k && Explains(e.call, e.serverReply, "", s);
      assert S.EntryOK(w.servers, e);
      assert "" in w.servers ==> S.ServerOK(w, "");
    }
  }

  lemma ReconcileKeepsExplained(w: World, k: Key, env: M.MachineEnv, made: Option<string>)
    requires S.ServersInv(w) && Explained(w, k) && MachinePresent(w, k)
    ensures Explained(StepMachine(w, k, env, made), k)
  {
    var m := w.machines[k].obj;
    var eff := MachineEffectIn(w, k, env);
    var w' := StepMachine(w, k, env, made);
    var m' := w'.machines[k].obj;
    var id, id' := M.GetMachineID(m), M.GetMachineID(m');
    ReconcileExplains(m, SiteOf(w, k), EnvSeen(w, k, env));
    L.IdentityStays(w, ReconcileMachine(k, env, made), k);
    if id == "" {
      EvidenceWithoutServer(w, k, id', m.status.bmcStatus);
    }
    if eff.call.Some? {
      var e := MachineCall(k, eff.call.value, env.reply);
      assert w'.log == w.log + [e];
      assert e in w'.log;
      EvidenceGrows(w.log, [e], k, id', m.status.bmcStatus);
      if id == "" {
        F.CallsNameTheRecordedServer(m, SiteOf(w, k), EnvSeen(w, k, env));
      }
    }
  }

  lemma StepKeepsExplained(w: World, l: Label, k: Key)
    requires S.ServersInv(w) && Explained(w, k) && Allowed(w, l)
    ensures Explained(Step(w, l), k)
  {
    if k !in w.machines {
      if k in Step(w, l).machines {
        L.NewMachinesArePristine(w, l, k);
      }
    } else if l.ReconcileMachine? && l.key == k && MachinePresent(w, k) {
      ReconcileKeepsExplained(w, k, l.menv, l.made);
    } else {
      var m := w.machines[k].obj;
      L.LogOnlyGrows(w, l);
      assert Step(w, l).log == w.log + Step(w, l).log[|w.log|..];
      EvidenceGrows(w.log, Step(w, l).log[|w.log|..], k, M.GetMachineID(m), m.status.bmcStatus);
      if !(l.ReconcileMachine? && l.key == k) {
        L.OtherStepsLeaveMachine(w, l, k);
      }
    }
  }

  lemma {:induction false} RunKeepsExplained(w: World, labels: seq<Label>, k: Key)
    requires S.ServersInv(w) && Explained(w, k) && ValidRun(w, labels)
    ensures Explained(Run(w, labels), k)
    decreases |labels|
  {
    if labels != [] {
      StepKeepsExplained(w, labels[0], k);
      S.StepKeepsServersInv(w, labels[0]);
      RunKeepsExplained(Step(w, labels[0]), labels[1..], k);
    }
  }

  /** The recorded status of a machine is the initial one, or one of its own calls was answered with it. */
  lemma MachineStatusHasEvidence(w: World, labels: seq<Label>, k: Key)
    requires T.Reached(w, labels) && k in w.machines
    ensures Evidence(w.log, k, M.GetMachineID(w.machines[k].obj), w.machines[k].obj.status.bmcStatus)
  {
    RunKeepsExplained(EMPTY_WORLD, labels, k);
  }

  /** Access to this server was denied, or it was reported orphaned. */
  predicate Denied(log: seq<Entry>, k: Key, id: string) {
    exists e :: e in log && e.MachineCall? && e.machine == k &&
                (|| ((e.call == GetServer(id) || e.call == Deprovision(id)) && Answered(e.serverReply, {403}))
                 || ((e.call == GetServer(id) || e.call.PostServer?) && Delivered(e.serverReply)
                     && e.serverReply.body.value.bmcStatus == Orphaned))
  }

  lemma OrphanEvidenceIsDenial(log: seq<Entry>, k: Key, id: string)
    requires Evidence(log, k, id, Orphaned)
    ensures Denied(log, k, id)
  {
    var e :| e in log && e.MachineCall? && e.machine == k && Explains(e.call, e.serverReply, id, Orphaned);
    assert e in log;
  }

  /** A machine is recorded as orphaned only after a denial; so no deprovision is ever skipped without one. */
  lemma OrphanedMeansDenied(w: World, labels: seq<Label>, k: Key)
    requires T.Reached(w, labels) && k in w.machines && w.machines[k].obj.status.bmcStatus == Orphaned
    ensures Denied(w.log, k, M.GetMachineID(w.machines[k].obj))
  {
    MachineStatusHasEvidence(w, labels, k);
    OrphanEvidenceIsDenial(w.log, k, M.GetMachineID(w.machines[k].obj));
  }

  /** Servers lost because their machine was orphaned. */
  predicate SkipsDenied(w: World) {
    forall s :: s in w.lostServers && w.lostServers[s] == SkippedAsOrphaned ==>
                  s in w.servers && Denied(w.log, w.servers[s].owner, s)
  }

  lemma DenialGrows(log: seq<Entry>, log': seq<Entry>, k: Key, id: string)
    requires Denied(log, k, id) && |log| <= |log'| && log'[..|log|] == log
    ensures Denied(log', k, id)
  {
    assert forall e :: e in log ==> e in log' by {
      assert log' == log + log'[|log|..];
    }
  }

  lemma StepKeepsSkipsDenied(w: World, l: Label)
    requires S.ServersInv(w) && SkipsDenied(w) && Allowed(w, l) && forall k :: Explained(Step(w, l), k)
    ensures SkipsDenied(Step(w, l))
  {
    var w' := Step(w, l);
    L.LogOnlyGrows(w, l);
    forall s | s in w'.lostServers && w'.lostServers[s] == SkippedAsOrphaned
      ensures s in w'.servers && Denied(w'.log, w'.servers[s].owner, s)
    {
      T.EveryLossIsCharged(w, l, s);
      T.ServersKeepOwner(w, l, s);
      var k := w.servers[s].owner;
      if s in w.lostServers {
        DenialGrows(w.log, w'.log, k, s);
      } else {
        L.IdentityStays(w, l, k);
        assert Explained(w', k);
        OrphanEvidenceIsDenial(w'.log, k, s);
      }
    }
  }

  lemma {:induction false} RunKeepsSkipsDenied(w: World, labels: seq<Label>)
    requires S.ServersInv(w) && SkipsDenied(w) && (forall k :: Explained(w, k)) && ValidRun(w, labels)
    ensures SkipsDenied(Run(w, labels))
    decreases |labels|
  {
    if labels != [] {
      forall k
        ensures Explained(Step(w, labels[0]), k)
      {
        StepKeepsExplained(w, labels[0], k);
      }
      StepKeepsSkipsDenied(w, labels[0]);
      S.StepKeepsServersInv(w, labels[0]);
      RunKeepsSkipsDenied(Step(w, labels[0]), labels[1..]);
    }
  }

  /** A server that is given up as orphaned was denied to its machine, or reported orphaned to it, in this very run. */
  lemma SkippedServersWereDenied(w: World, labels: seq<Label>, s: string)
    requires T.Reached(w, labels) && s in w.lostServers && w.lostServers[s] == SkippedAsOrphaned
    ensures s in w.servers && Denied(w.log, w.servers[s].owner, s)
  {
    RunKeepsSkipsDenied(EMPTY_WORLD, labels);
  }

  // ---------- clusters ----------

  /** This call, so answered, makes a cluster be recorded in status s. */
  predicate ClusterExplains(call: Call, reply: Reply<ClusterStatus>, s: BMCStatus) {
    || ((call.PostBlock? || call.GetBlock?) && Delivered(reply) && reply.body.value.bmcStatus == s)
    || (call.PostBlock? && s == Irreconcilable && Answered(reply, {400, 401, 403}))
    || (call.GetBlock? && ((s == Stale && Outage(reply)) || (s == Orphaned && Answered(reply, {403}))
                           || (s == Irreconcilable && Answered(reply, {400, 401}))))
  }

  predicate ClusterEvidence(log: seq<Entry>, k: Key, s: BMCStatus) {
    s == EMPTY_CLUSTER_STATUS.bmcStatus
    || exists e :: e in log && e.ClusterCall? && e.cluster == k && ClusterExplains(e.call, e.blockReply, s)
  }

  predicate ClusterExplained(w: World, k: Key) {
    k in w.clusters ==> ClusterEvidence(w.log, k, w.clusters[k].obj.status.bmcStatus)
  }

  lemma ClusterReconcileExplains(c: Cluster, env: C.ClusterEnv)
    ensures var eff := C.ReconcileEffect(c, env);
            var s' := eff.obj.status.bmcStatus;
            s' == c.status.bmcStatus || (eff.call.Some? && ClusterExplains(eff.call.value, env.reply, s'))
  {
    var call := C.ReconcileEffect(c, env).call;
    P.CallsIff(c, env);
    if P.Allocates(c, env) {
      P.AllocationStores(c, env);
      assert call == Some(PostBlock);
    } else if P.Polls(c, env) {
      P.PollStores(c, env);
      assert call == Some(GetBlock(C.GetIPAllocationID(c)));
    } else if P.Deletes(c, env) {
      P.DeletionReturns(c, env);
    } else {
      P.ClosedGate(c, env);
    }
  }

  lemma ClusterEvidenceGrows(log: seq<Entry>, more: seq<Entry>, k: Key, s: BMCStatus)
    requires ClusterEvidence(log, k, s)
    ensures ClusterEvidence(log + more, k, s)
  {
    assert forall e :: e in log ==> e in log + more;
  }

  lemma ReconcileKeepsClusterExplained(w: World, k: Key, env: C.ClusterEnv, made: Option<string>)
    requires ClusterExplained(w, k) && ClusterPresent(w, k)
    ensures ClusterExplained(StepCluster(w, k, env, made), k)
  {
    var c := w.clusters[k].obj;
    var eff := C.ReconcileEffect(c, env);
    var w' := StepCluster(w, k, env, made);
    ClusterReconcileExplains(c, env);
    if eff.call.Some? {
      var e := ClusterCall(k, eff.call.value, env.reply);
      assert w'.log == w.log + [e];
      assert e in w'.log;
      ClusterEvidenceGrows(w.log, [e], k, c.status.bmcStatus);
    }
  }

  lemma StepKeepsClusterExplained(w: World, l: Label, k: Key)
    requires ClusterExplained(w, k) && Allowed(w, l)
    ensures ClusterExplained(Step(w, l), k)
  {
    if k !in w.clusters {
      if k in Step(w, l).clusters {
        B.NewClustersArePristine(w, l, k);
      }
    } else if l.ReconcileCluster? && l.key == k && ClusterPresent(w, k) {
      ReconcileKeepsClusterExplained(w, k, l.cenv, l.made);
    } else {
      L.LogOnlyGrows(w, l);
      assert Step(w, l).log == w.log + Step(w, l).log[|w.log|..];
      ClusterEvidenceGrows(w.log, Step(w, l).log[|w.log|..], k, w.clusters[k].obj.status.bmcStatus);
      if !(l.ReconcileCluster? && l.key == k) {
        B.OtherStepsLeaveCluster(w, l, k);
      }
    }
  }

  /** A DELETE was only sent for a cluster whose block had been reported unassigned. */
  predicate DeletesExplained(log: seq<Entry>, k: Key) {
    forall e :: e in log && e.ClusterCall? && e.cluster == k && e.call.DeleteBlock? ==> ReportedUnassigned(log, k)
  }

  predicate ReportedUnassigned(log: seq<Entry>, k: Key) {
    exists e :: e in log && e.ClusterCall? && e.cluster == k && (e.call.PostBlock? || e.call.GetBlock?)
                && Delivered(e.blockReply) && e.blockReply.body.value.bmcStatus == NotAssigned
  }

  lemma UnassignedWasReported(log: seq<Entry>, more: seq<Entry>, k: Key)
    requires ClusterEvidence(log, k, NotAssigned)
    ensures ReportedUnassigned(log + more, k)
  {
    var e :| e in log && e.ClusterCall? && e.cluster == k && ClusterExplains(e.call, e.blockReply, NotAssigned);
    assert e in log + more;
  }

  lemma ReportsGrow(log: seq<Entry>, more: seq<Entry>, k: Key)
    requires ReportedUnassigned(log, k)
    ensures ReportedUnassigned(log + more, k)
  {
    assert forall e :: e in log ==> e in log + more;
  }

  lemma ReconcileKeepsDeletesExplained(w: World, j: Key, env: C.ClusterEnv, made: Option<string>, k: Key)
    requires ClusterExplained(w, k) && DeletesExplained(w.log, k) && ClusterPresent(w, j)
    ensures DeletesExplained(StepCluster(w, j, env, made).log, k)
  {
    var c := w.clusters[j].obj;
    var call := C.ReconcileEffect(c, env).call;
    if call.Some? {
      var e := ClusterCall(j, call.value, env.reply);
      assert StepCluster(w, j, env, made).log == w.log + [e];
      I.CallsNameTheRecordedBlock(c, env);
      if j == k && call.value.DeleteBlock? {
        UnassignedWasReported(w.log, [e], k);
      } else if ReportedUnassigned(w.log, k) {
        ReportsGrow(w.log, [e], k);
      }
    }
  }

  lemma StepKeepsDeletesExplained(w: World, l: Label, k: Key)
    requires ClusterExplained(w, k) && DeletesExplained(w.log, k)
    ensures DeletesExplained(Step(w, l).log, k)
  {
    if l.ReconcileCluster? && ClusterPresent(w, l.key) {
      ReconcileKeepsDeletesExplained(w, l.key, l.cenv, l.made, k);
    } else {
      if l.ReconcileMachine? && MachinePresent(w, l.key) {
        I.MachineStepLeavesBlocks(w, l);
      }
      L.LogOnlyGrows(w, l);
      assert Step(w, l).log == w.log + Step(w, l).log[|w.log|..];
      if ReportedUnassigned(w.log, k) {
        ReportsGrow(w.log, Step(w, l).log[|w.log|..], k);
      }
    }
  }

  lemma {:induction false} RunKeepsClusterExplained(w: World, labels: seq<Label>, k: Key)
    requires ClusterExplained(w, k) && DeletesExplained(w.log, k) && ValidRun(w, labels)
    ensures ClusterExplained(Run(w, labels), k) && DeletesExplained(Run(w, labels).log, k)
    decreases |labels|
  {
    if labels != [] {
      StepKeepsClusterExplained(w, labels[0], k);
      StepKeepsDeletesExplained(w, labels[0], k);
      RunKeepsClusterExplained(Step(w, labels[0]), labels[1..], k);
    }
  }

  /** The recorded status of a cluster is the initial one, or one of its own calls was answered with it. */
  lemma ClusterStatusHasEvidence(w: World, labels: seq<Label>, k: Key)
    requires T.Reached(w, labels) && k in w.clusters
    ensures ClusterEvidence(w.log, k, w.clusters[k].obj.status.bmcStatus)
  {
    RunKeepsClusterExplained(EMPTY_WORLD, labels, k);
  }

  /** No DELETE is ever sent for a cluster before its block was reported unassigned to it. */
  lemma DeletesFollowAReport(w: World, labels: seq<Label>, e: Entry)
    requires T.Reached(w, labels) && e in w.log && e.ClusterCall? && e.call.DeleteBlock?
    ensures ReportedUnassigned(w.log, e.cluster)
  {
    RunKeepsClusterExplained(EMPTY_WORLD, labels, e.cluster);
  }
}
