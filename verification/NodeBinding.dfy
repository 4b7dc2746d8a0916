/**
 The binding of workload nodes over whole runs: which server a node carries, that it carries the
 one of the machine that wrote it first, and what becomes of a write that fails.
 */
module NodeBinding {
  import opened Wrappers
  import opened Api
  import opened TransitionSystem
  import opened ServerInvariant
  import opened MachineLifecycle
  import M = MachineModel
  import F = MachineFacts
  import O = MachineOutcomes
  import T = ServerTheorems

  /** With a provider id in place no reconcile of a machine that has its server can panic, and a node gets that id. */
  lemma NodesGetTheProviderID(m: Machine, site: M.Site, env: M.MachineEnv)
    ensures var eff := M.ReconcileEffect(m, site, env);
            && (eff.nodeProviderID.Some? ==> M.GetMachineID(m) != "" && eff.nodeProviderID == m.providerID)
            && (m.providerID.Some? && M.GetMachineID(m) != "" && env.gate != M.InfrastructureRefMissing ==>
                  eff.result != Panicked)
  {
  }

  /** A live machine that is not bound yet polls its server powered on and finds its node. */
  predicate Binds(m: Machine, site: M.Site, env: M.MachineEnv) {
    && !m.deleting && env.gate == M.Open && site.infrastructureReady && env.secret != M.NameMissing
    && Delivered(env.reply) && env.reply.body.value.bmcStatus == PoweredOn
    && m.status.nodeRef.None? && env.node.NodeFound?
  }

  /** A machine with a server writes its provider id to its node exactly when it binds that node and the write works. */
  lemma NodeIsWrittenOnlyWhenBinding(m: Machine, site: M.Site, env: M.MachineEnv)
    requires m.providerID.Some? && M.GetMachineID(m) != ""
    ensures var eff := M.ReconcileEffect(m, site, env);
            eff.nodeProviderID.Some? <==>
              Binds(m, site, env) && env.node.write == M.Patched
  {
  }

  lemma BindingSetsNodeRefIff(m: Machine, site: M.Site, env: M.MachineEnv)
    requires m.providerID.Some? && M.GetMachineID(m) != "" && m.status.nodeRef.None?
    ensures M.ReconcileEffect(m, site, env).obj.status.nodeRef.Some? <==> Binds(m, site, env)
  {
    PollBindsIff(m.(finalizers := m.finalizers + {MachineFinalizer}), site.hostname, env.reply, env.node);
  }

  lemma FailedPollBindsNothing(m: Machine, hostname: string, reply: Reply<MachineStatus>, node: M.NodeLookup)
    requires !Delivered(reply)
    ensures M.SyncEffect(m, hostname, reply, node).obj.status.nodeRef == m.status.nodeRef
  {
  }

  lemma PolledBindsIff(m: Machine, call: Call, hostname: string, s: MachineStatus, node: M.NodeLookup)
    requires m.providerID.Some? && m.status.nodeRef.None?
    ensures M.PolledEffect(m, call, hostname, s, node).obj.status.nodeRef.Some? <==>
              s.bmcStatus == PoweredOn && node.NodeFound?
  {
    F.BoundChangesNodeOnly(if m.status.bmcStatus != s.bmcStatus then M.Updated(m, s) else m, hostname, node);
  }

  lemma PollBindsIff(m: Machine, hostname: string, reply: Reply<MachineStatus>, node: M.NodeLookup)
    requires m.providerID.Some? && m.status.nodeRef.None?
    ensures M.SyncEffect(m, hostname, reply, node).obj.status.nodeRef.Some? <==>
              Delivered(reply) && reply.body.value.bmcStatus == PoweredOn && node.NodeFound?
  {
    if Delivered(reply) {
      PolledBindsIff(m, GetServer(M.GetMachineID(m)), hostname, reply.body.value, node);
    } else {
      FailedPollBindsNothing(m, hostname, reply, node);
    }
  }

  /** A binding that is stored leaves the node unwritten exactly when the node is found and the write to it fails. */
  lemma BindingLeavesNodeUnwrittenIff(m: Machine, site: M.Site, env: M.MachineEnv)
    requires m.providerID.Some? && M.GetMachineID(m) != "" && m.status.nodeRef.None?
    ensures var eff := M.ReconcileEffect(m, site, env);
            M.Persisted(m, eff.obj, env.patch).status.nodeRef.Some? && eff.nodeProviderID.None? <==>
              Binds(m, site, env) && env.node.write != M.Patched && env.patch.status
  {
    BindingSetsNodeRefIff(m, site, env);
    NodeIsWrittenOnlyWhenBinding(m, site, env);
  }

  /** A node reference that a machine with a server comes to have names the node it is looked up as, and the uid found there. */
  lemma ReferenceNamesTheNode(w: World, k: Key, env: M.MachineEnv, made: Option<string>)
    requires MachinePresent(w, k) && M.GetMachineID(w.machines[k].obj) != "" && w.machines[k].obj.status.nodeRef.None?
    ensures var ref := Step(w, ReconcileMachine(k, env, made)).machines[k].obj.status.nodeRef;
            ref.Some? ==> env.node.NodeFound? && ref.value == NodeRef(w.machines[k].place.Node().1, env.node.uid)
  {
    var m, site, seen := w.machines[k].obj, SiteOf(w, k), EnvSeen(w, k, env);
    O.PatchPartsArriveAlone(w, k, env, made);
    if O.Polls(m, site, seen) {
      O.PollingReconcile(m, site, seen);
      O.PollJudges(m.(finalizers := m.finalizers + {MachineFinalizer}), site.hostname, seen);
    } else if O.Deprovisions(m, seen) {
      O.DeprovisionStores(m, site, seen);
    } else {
      O.SilentReconcile(m, site, seen);
    }
  }

  // ---------- which server a node carries ----------

  predicate NodeOK(w: World, n: (Key, string), k: Key)
    requires n in w.nodes
  {
    && k in w.machines && w.machines[k].place.Node() == n
    && M.GetMachineID(w.machines[k].obj) != ""
    && w.nodes[n] == M.ProviderIDOf(M.GetMachineID(w.machines[k].obj))
  }

  predicate NodesInv(w: World) {
    forall n :: n in w.nodes ==> exists k :: k in w.machines && NodeOK(w, n, k)
  }

  /** A step writes the node of the reconciled machine, and only when it binds it. */
  lemma NodesChangeByBinding(w: World, l: Label)
    ensures Step(w, l).nodes ==
              if l.ReconcileMachine? && MachinePresent(w, l.key) && MachineEffectIn(w, l.key, l.menv).nodeProviderID.Some?
              then w.nodes[w.machines[l.key].place.Node() := MachineEffectIn(w, l.key, l.menv).nodeProviderID.value]
              else w.nodes
  {
  }

  lemma BindingKeepsNodeOK(w: World, l: Label)
    requires ServersInv(w) && Allowed(w, l) && l.ReconcileMachine? && MachinePresent(w, l.key)
    requires MachineEffectIn(w, l.key, l.menv).nodeProviderID.Some?
    ensures l.key in Step(w, l).machines
    ensures w.machines[l.key].place.Node() in Step(w, l).nodes
    ensures NodeOK(Step(w, l), w.machines[l.key].place.Node(), l.key)
  {
    var m := w.machines[l.key].obj;
    NodesChangeByBinding(w, l);
    NodesGetTheProviderID(m, SiteOf(w, l.key), EnvSeen(w, l.key, l.menv));
    assert MachineOK(w.servers, w.log, l.key, w.machines[l.key]);
    IdentityStays(w, l, l.key);
  }

  lemma OldNodeStaysOK(w: World, l: Label, n: (Key, string), k: Key)
    requires n in w.nodes && n in Step(w, l).nodes && Step(w, l).nodes[n] == w.nodes[n] && NodeOK(w, n, k)
    ensures k in Step(w, l).machines && NodeOK(Step(w, l), n, k)
  {
    IdentityStays(w, l, k);
  }

  lemma StepKeepsNodeOK(w: World, l: Label, n: (Key, string))
    requires ServersInv(w) && NodesInv(w) && Allowed(w, l) && n in Step(w, l).nodes
    ensures exists k :: k in Step(w, l).machines && NodeOK(Step(w, l), n, k)
  {
    NodesChangeByBinding(w, l);
    if l.ReconcileMachine? && MachinePresent(w, l.key)
       && MachineEffectIn(w, l.key, l.menv).nodeProviderID.Some? && w.machines[l.key].place.Node() == n {
      BindingKeepsNodeOK(w, l);
    } else {
      var k :| k in w.machines && NodeOK(w, n, k);
      OldNodeStaysOK(w, l, n, k);
    }
  }

  lemma {:induction false} RunKeepsNodesInv(w: World, labels: seq<Label>)
    requires ServersInv(w) && NodesInv(w) && ValidRun(w, labels)
    ensures ServersInv(Run(w, labels)) && NodesInv(Run(w, labels))
    decreases |labels|
  {
    if labels != [] {
      var w' := Step(w, labels[0]);
      StepKeepsServersInv(w, labels[0]);
      forall n | n in w'.nodes
        ensures exists k :: k in w'.machines && NodeOK(w', n, k)
      {
        StepKeepsNodeOK(w, labels[0], n);
      }
      RunKeepsNodesInv(w', labels[1..]);
    }
  }

  /** A provider id written to a node names the server of a machine that is looked up as that node. */
  lemma NodesNameTheirMachine(w: World, labels: seq<Label>, n: (Key, string)) returns (k: Key)
    requires T.Reached(w, labels) && n in w.nodes
    ensures NodeOK(w, n, k)
  {
    RunKeepsNodesInv(EMPTY_WORLD, labels);
    k :| k in w.machines && NodeOK(w, n, k);
  }

  predicate SoleUserOfNode(w: World, k: Key)
    requires k in w.machines
  {
    forall j :: j in w.machines && w.machines[j].place.Node() == w.machines[k].place.Node() ==> j == k
  }

  /** Without a second machine of the same host name, the node of a machine carries that machine's own server. */
  lemma SoleUserOwnsItsNode(w: World, labels: seq<Label>, k: Key)
    requires T.Reached(w, labels) && k in w.machines && SoleUserOfNode(w, k)
    requires w.machines[k].place.Node() in w.nodes
    ensures w.nodes[w.machines[k].place.Node()] == M.ProviderIDOf(M.GetMachineID(w.machines[k].obj))
    ensures w.machines[k].obj.providerID == Some(w.nodes[w.machines[k].place.Node()])
  {
    var j := NodesNameTheirMachine(w, labels, w.machines[k].place.Node());
    T.ProviderIDSpellsServer(w, labels, k);
  }

  // ---------- nodes that are shared ----------

  predicate Separator(c: char) {
    c == '.' || c == '/' || c == '-'
  }

  /** Two machine names are looked up as the same node exactly when they differ in dots, slashes and dashes only. */
  lemma HostnamesCollideIff(x: string, y: string)
    ensures M.GetHostname(x) == M.GetHostname(y) <==>
              |x| == |y| && forall i :: 0 <= i < |x| ==> x[i] == y[i] || (Separator(x[i]) && Separator(y[i]))
  {
    var hx, hy := M.GetHostname(x), M.GetHostname(y);
    if hx == hy {
      forall i | 0 <= i < |x|
        ensures x[i] == y[i] || (Separator(x[i]) && Separator(y[i]))
      {
        assert hx[i] == hy[i];
      }
    }
  }

  /** Distinct machines of a cluster can be looked up as the same node. */
  lemma DistinctNamesCanShareANode(c: Key, controlPlane: bool)
    ensures Placement(c, "a.b", controlPlane) != Placement(c, "a-b", controlPlane)
    ensures Placement(c, "a.b", controlPlane).Node() == Placement(c, "a-b", controlPlane).Node()
  {
    assert "a.b"[1] != "a-b"[1];
    HostnamesCollideIff("a.b", "a-b");
  }

  /** This step writes the provider id of the machine j to its node. */
  predicate WritesNode(w: World, l: Label, j: Key) {
    l.ReconcileMachine? && l.key == j && MachinePresent(w, j) && MachineEffectIn(w, j, l.menv).nodeProviderID.Some?
  }

  lemma StepKeepsWrittenNode(w: World, l: Label, n: (Key, string))
    requires Allowed(w, l) && n in w.nodes
    ensures n in Step(w, l).nodes && Step(w, l).nodes[n] == w.nodes[n]
  {
    NodesChangeByBinding(w, l);
  }

  /** A node's provider id is written once: no later run changes it. */
  lemma {:induction false} NodesAreWrittenOnce(w: World, labels: seq<Label>, n: (Key, string))
    requires ValidRun(w, labels) && n in w.nodes
    ensures n in Run(w, labels).nodes && Run(w, labels).nodes[n] == w.nodes[n]
    decreases |labels|
  {
    if labels != [] {
      StepKeepsWrittenNode(w, labels[0], n);
      NodesAreWrittenOnce(Step(w, labels[0]), labels[1..], n);
    }
  }

  lemma {:induction false} IdentityEndures(w: World, labels: seq<Label>, k: Key)
    requires k in w.machines && M.GetMachineID(w.machines[k].obj) != ""
    ensures k in Run(w, labels).machines && Run(w, labels).machines[k].place == w.machines[k].place
    ensures M.GetMachineID(Run(w, labels).machines[k].obj) == M.GetMachineID(w.machines[k].obj)
    decreases |labels|
  {
    if labels != [] {
      IdentityStays(w, labels[0], k);
      IdentityEndures(Step(w, labels[0]), labels[1..], k);
    }
  }

  /** The step number i of the run writes a node that was not written before, for the machine j. */
  predicate WroteFirst(labels: seq<Label>, i: nat, n: (Key, string), j: Key) {
    && i < |labels|
    && var v := Run(EMPTY_WORLD, labels[..i]);
       WritesNode(v, labels[i], j) && v.machines[j].place.Node() == n && n !in v.nodes
  }

  /** Whoever writes a node writes the id of its own server. */
  lemma WrittenNodeNamesWriter(w: World, l: Label, j: Key)
    requires ServersInv(w) && WritesNode(w, l, j)
    ensures var n, id := w.machines[j].place.Node(), M.GetMachineID(w.machines[j].obj);
            id != "" && n in Step(w, l).nodes && Step(w, l).nodes[n] == M.ProviderIDOf(id)
  {
    NodesChangeByBinding(w, l);
    NodesGetTheProviderID(w.machines[j].obj, SiteOf(w, j), EnvSeen(w, j, l.menv));
    assert MachineOK(w.servers, w.log, j, w.machines[j]);
  }

  /** Whoever wrote a node first has its server named by it at the end of the run. */
  lemma FirstWriterIsNamed(w: World, labels: seq<Label>, i: nat, n: (Key, string), j: Key)
    requires T.Reached(w, labels) && WroteFirst(labels, i, n, j)
    ensures n in w.nodes && NodeOK(w, n, j)
  {
    var v := Run(EMPTY_WORLD, labels[..i]);
    assert labels == labels[..i] + ([labels[i]] + labels[i + 1..]);
    RunSplits(EMPTY_WORLD, labels[..i], [labels[i]] + labels[i + 1..]);
    RunSplits(v, [labels[i]], labels[i + 1..]);
    RunOne(v, labels[i]);
    RunKeepsServersInv(EMPTY_WORLD, labels[..i]);
    WrittenNodeNamesWriter(v, labels[i], j);
    IdentityStays(v, labels[i], j);
    NodesAreWrittenOnce(Step(v, labels[i]), labels[i + 1..], n);
    IdentityEndures(Step(v, labels[i]), labels[i + 1..], j);
  }

  /** Every written node was written by somebody first. */
  lemma {:induction false} SomebodyWroteFirst(labels: seq<Label>, n: (Key, string)) returns (i: nat, j: Key)
    requires ValidRun(EMPTY_WORLD, labels) && n in Run(EMPTY_WORLD, labels).nodes
    ensures WroteFirst(labels, i, n, j)
    decreases |labels|
  {
    var last := |labels| - 1;
    assert labels != [];
    assert labels == labels[..last] + [labels[last]];
    RunSplits(EMPTY_WORLD, labels[..last], [labels[last]]);
    var v := Run(EMPTY_WORLD, labels[..last]);
    RunOne(v, labels[last]);
    if n in v.nodes {
      i, j := SomebodyWroteFirst(labels[..last], n);
      assert labels[..last][..i] == labels[..i];
    } else {
      NodesChangeByBinding(v, labels[last]);
      i, j := last, labels[last].key;
    }
  }

  /**
   A written node carries the id of a machine's server exactly when that machine wrote it first;
   otherwise another machine that is looked up as the same node did, and it carries that one's.
   */
  lemma NodeNamesItsFirstWriter(w: World, labels: seq<Label>, k: Key)
    requires T.Reached(w, labels) && k in w.machines && M.GetMachineID(w.machines[k].obj) != ""
    requires w.machines[k].place.Node() in w.nodes
    ensures var n := w.machines[k].place.Node();
            && (w.nodes[n] == M.ProviderIDOf(M.GetMachineID(w.machines[k].obj)) <==> exists i :: WroteFirst(labels, i, n, k))
            && (w.nodes[n] != M.ProviderIDOf(M.GetMachineID(w.machines[k].obj)) <==>
                  exists i, j :: j != k && WroteFirst(labels, i, n, j) && NodeOK(w, n, j))
  {
    var n, id := w.machines[k].place.Node(), M.GetMachineID(w.machines[k].obj);
    var i, j := SomebodyWroteFirst(labels, n);
    FirstWriterIsNamed(w, labels, i, n, j);
    if j != k {
      NodesDiffer(w, labels, j, k);
    }
    forall i', j' | WroteFirst(labels, i', n, j') && j' != k
      ensures w.nodes[n] != M.ProviderIDOf(id)
    {
      FirstWriterIsNamed(w, labels, i', n, j');
      NodesDiffer(w, labels, j', k);
    }
    forall i' | WroteFirst(labels, i', n, k)
      ensures w.nodes[n] == M.ProviderIDOf(id)
    {
      FirstWriterIsNamed(w, labels, i', n, k);
    }
  }

  lemma NodesDiffer(w: World, labels: seq<Label>, j: Key, k: Key)
    requires T.Reached(w, labels) && j in w.machines && k in w.machines && j != k
    requires M.GetMachineID(w.machines[j].obj) != "" && M.GetMachineID(w.machines[k].obj) != ""
    ensures M.ProviderIDOf(M.GetMachineID(w.machines[j].obj)) != M.ProviderIDOf(M.GetMachineID(w.machines[k].obj))
  {
    if M.GetMachineID(w.machines[j].obj) == M.GetMachineID(w.machines[k].obj) {
      T.ServersAreNotShared(w, labels, j, k);
    }
    ProviderIDsDiffer(M.GetMachineID(w.machines[j].obj), M.GetMachineID(w.machines[k].obj));
  }

  lemma ProviderIDsDiffer(x: string, y: string)
    requires x != y
    ensures M.ProviderIDOf(x) != M.ProviderIDOf(y)
  {
    var p := "bmc://servers/";
    assert (p + x)[|p|..] == x && (p + y)[|p|..] == y;
  }

  // ---------- a node write that fails is never repeated ----------

  lemma BoundPollWritesNoNode(m: Machine, hostname: string, reply: Reply<MachineStatus>, node: M.NodeLookup)
    requires m.status.nodeRef.Some?
    ensures M.SyncEffect(m, hostname, reply, node).nodeProviderID.None?
  {
  }

  lemma BoundMachineWritesNoNode(m: Machine, site: M.Site, env: M.MachineEnv)
    requires m.status.nodeRef.Some? && M.GetMachineID(m) != ""
    ensures M.ReconcileEffect(m, site, env).nodeProviderID.None?
  {
    BoundPollWritesNoNode(m.(finalizers := m.finalizers + {MachineFinalizer}), site.hostname, env.reply, env.node);
  }

  lemma StepLeavesNodeRef(w: World, l: Label, k: Key)
    requires ServersInv(w) && k in w.machines && w.machines[k].obj.status.nodeRef.Some?
    requires M.GetMachineID(w.machines[k].obj) != ""
    ensures k in Step(w, l).machines && Step(w, l).machines[k].obj.status.nodeRef.Some?
  {
    if l.ReconcileMachine? && l.key == k {
      if MachinePresent(w, k) {
        assert MachineOK(w.servers, w.log, k, w.machines[k]);
        ReconcileKeepsStatus(w.machines[k].obj, SiteOf(w, k), EnvSeen(w, k, l.menv));
      }
    } else {
      OtherStepsLeaveMachine(w, l, k);
    }
  }

  lemma StepLeavesUnwrittenNode(w: World, l: Label, k: Key)
    requires k in w.machines && w.machines[k].obj.status.nodeRef.Some? && M.GetMachineID(w.machines[k].obj) != ""
    requires w.machines[k].place.Node() !in w.nodes && SoleUserOfNode(w, k)
    ensures w.machines[k].place.Node() !in Step(w, l).nodes
  {
    NodesChangeByBinding(w, l);
    if l.ReconcileMachine? && l.key == k && MachinePresent(w, k) {
      BoundMachineWritesNoNode(w.machines[k].obj, SiteOf(w, k), EnvSeen(w, k, l.menv));
    }
  }

  lemma SoleUserWasSole(w: World, l: Label, k: Key)
    requires ServersInv(w) && Allowed(w, l) && k in w.machines && k in Step(w, l).machines
    requires SoleUserOfNode(Step(w, l), k)
    ensures SoleUserOfNode(w, k)
  {
    IdentityStays(w, l, k);
    forall j | j in w.machines && w.machines[j].place.Node() == w.machines[k].place.Node()
      ensures j == k
    {
      IdentityStays(w, l, j);
    }
  }

  lemma {:induction false} SoleUserWasAlwaysSole(w: World, labels: seq<Label>, k: Key)
    requires ServersInv(w) && ValidRun(w, labels) && k in w.machines
    ensures k in Run(w, labels).machines
    ensures SoleUserOfNode(Run(w, labels), k) ==> SoleUserOfNode(w, k)
    decreases |labels|
  {
    if labels != [] {
      IdentityStays(w, labels[0], k);
      StepKeepsServersInv(w, labels[0]);
      SoleUserWasAlwaysSole(Step(w, labels[0]), labels[1..], k);
      if SoleUserOfNode(Run(w, labels), k) {
        SoleUserWasSole(w, labels[0], k);
      }
    }
  }

  /**
   Once a machine is bound to a node whose provider id was not written, and no other machine is
   ever looked up as that node, it stays unwritten for the rest of every run: the recorded
   reference keeps the write from being tried again.
   */
  lemma {:induction false} UnwrittenNodeStaysUnwritten(w: World, labels: seq<Label>, k: Key)
    requires ServersInv(w) && ValidRun(w, labels)
    requires k in w.machines && M.GetMachineID(w.machines[k].obj) != ""
    requires w.machines[k].obj.status.nodeRef.Some? && w.machines[k].place.Node() !in w.nodes
    requires k in Run(w, labels).machines && SoleUserOfNode(Run(w, labels), k)
    ensures w.machines[k].place.Node() !in Run(w, labels).nodes
    decreases |labels|
  {
    if labels != [] {
      SoleUserWasAlwaysSole(w, labels, k);
      StepLeavesNodeRef(w, labels[0], k);
      StepLeavesUnwrittenNode(w, labels[0], k);
      IdentityStays(w, labels[0], k);
      StepKeepsServersInv(w, labels[0]);
      UnwrittenNodeStaysUnwritten(Step(w, labels[0]), labels[1..], k);
    }
  }
}
