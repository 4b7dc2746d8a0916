/** What every reconcile of a machine keeps, sends and records, whatever the environment answers. */
module MachineFacts {
  import opened Wrappers
  import opened Api
  import opened MachineModel

  /** Binding a node changes the node reference only, and only from nil. */
  lemma BoundChangesNodeOnly(m: Machine, hostname: string, node: NodeLookup)
    ensures var b := Bound(m, hostname, node);
            && b.obj == m.(status := m.status.(nodeRef := b.obj.status.nodeRef))
            && (m.status.nodeRef.Some? ==> b.obj == m)
            && (m.providerID.Some? ==> !b.panicked)
  {
  }

  /** Binding looks at the node reference and the provider id alone. */
  lemma BoundAlike(m: Machine, n: Machine, hostname: string, node: NodeLookup)
    requires m.status.nodeRef == n.status.nodeRef && m.providerID == n.providerID
    ensures var x, y := Bound(m, hostname, node), Bound(n, hostname, node);
            x.obj.status.nodeRef == y.obj.status.nodeRef && x.panicked == y.panicked
  {
  }

  lemma PolledTouchesStatusOnly(m: Machine, call: Call, hostname: string, s: MachineStatus, node: NodeLookup)
    ensures var m' := PolledEffect(m, call, hostname, s, node).obj;
            m' == m.(status := m'.status)
  {
    BoundChangesNodeOnly(if m.status.bmcStatus != s.bmcStatus then Updated(m, s) else m, hostname, node);
  }

  /** A poll never touches anything but the status. */
  lemma SyncTouchesStatusOnly(m: Machine, hostname: string, reply: Reply<MachineStatus>, node: NodeLookup)
    ensures var m' := SyncEffect(m, hostname, reply, node).obj;
            m' == m.(status := m'.status)
  {
    if Delivered(reply) {
      PolledTouchesStatusOnly(m, GetServer(GetMachineID(m)), hostname, reply.body.value, node);
    }
  }

  /** Once a server id is recorded no reconcile changes it, nor the provider id that goes with it. */
  lemma RecordedIdentityIsKept(m: Machine, site: Site, env: MachineEnv)
    requires GetMachineID(m) != ""
    ensures var m' := ReconcileEffect(m, site, env).obj;
            m'.annotations == m.annotations && m'.providerID == m.providerID
  {
    SyncTouchesStatusOnly(m.(finalizers := m.finalizers + {MachineFinalizer}), site.hostname, env.reply, env.node);
  }

  /** A create is only sent for a live machine without a server; polls and deprovisions name the recorded server. */
  lemma CallsNameTheRecordedServer(m: Machine, site: Site, env: MachineEnv)
    requires ReconcileEffect(m, site, env).call.Some?
    ensures match ReconcileEffect(m, site, env).call.value
            case PostServer(blocks) =>
              GetMachineID(m) == "" && !m.deleting && env.gate == Open && site.infrastructureReady
              && blocks == BlocksFor(site) && (forall b :: b in blocks ==> b != "")
            case GetServer(id) => id == GetMachineID(m) != "" && !m.deleting && env.gate == Open
            case Deprovision(id) => id == GetMachineID(m) != "" && m.deleting && m.status.bmcStatus != Orphaned
            case _ => false
  {
  }

  predicate Posted(m: Machine, site: Site, env: MachineEnv) {
    var call := ReconcileEffect(m, site, env).call;
    call.Some? && call.value.PostServer?
  }

  /** A machine gets an id exactly from a delivered create reply that it can write down. */
  lemma IdentityComesFromCreateReply(m: Machine, site: Site, env: MachineEnv)
    requires GetMachineID(m) == ""
    ensures var m' := ReconcileEffect(m, site, env).obj;
            GetMachineID(m') ==
              if Posted(m, site, env) && Delivered(env.reply) && m.annotations.Some?
              then env.reply.body.value.bmcServerID else ""
    ensures var m' := ReconcileEffect(m, site, env).obj;
            GetMachineID(m') != "" ==>
              m'.providerID == Some(ProviderIDOf(GetMachineID(m'))) && MachineFinalizer in m'.finalizers && !m.deleting
  {
  }

  /** Live reconciles only add the finalizer; a delete reconcile that drops it has tried to deprovision or found an orphan. */
  lemma FinalizerMoves(m: Machine, site: Site, env: MachineEnv)
    ensures var eff := ReconcileEffect(m, site, env);
            if m.deleting then
              && eff.obj.finalizers <= m.finalizers
              && m.finalizers - {MachineFinalizer} <= eff.obj.finalizers
              && (eff.obj.finalizers != m.finalizers ==>
                    GetMachineID(m) == "" || m.status.bmcStatus == Orphaned || eff.call == Some(Deprovision(GetMachineID(m))))
              && (m.status.bmcStatus == Orphaned ==> eff.obj.status == m.status)
            else
              && m.finalizers <= eff.obj.finalizers
  {
  }

  /** With a provider id wherever there is a server, only two things make a reconcile panic. */
  lemma PanicsIff(m: Machine, site: Site, env: MachineEnv)
    requires GetMachineID(m) != "" ==> m.providerID.Some?
    ensures ReconcileEffect(m, site, env).result == Panicked <==>
              && !m.deleting
              && (|| env.gate == InfrastructureRefMissing
                  || (Posted(m, site, env) && Delivered(env.reply) && m.annotations.None?))
  {
  }
}
