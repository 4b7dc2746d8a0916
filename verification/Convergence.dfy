/** Progress: a rank that never rises, and the two steps that lower it. */
module Convergence {
  import opened Wrappers
  import opened Api
  import opened TransitionSystem
  import opened ServerInvariant
  import opened MachineLifecycle
  import M = MachineModel
  import F = MachineFacts

  /** How far a machine still is from being ready. */
  function Rank(p: Phase): nat {
    match p
    case Absent => 3
    case NoServer => 2
    case Provisioned(_, _) => 1
    case Ready(_, _, _) => 0
    case Gone => 0
  }

  /**
   Whatever fails, and even where a create reply forges Ready, no step raises the rank of a machine
   that is not ready without a server.
   */
  lemma RankNeverRises(w: World, l: Label, k: Key)
    requires ServersInv(w) && ReadyHasServer(w, k) && Allowed(w, l)
    ensures Rank(PhaseOf(Step(w, l), k)) <= Rank(PhaseOf(w, k))
  {
    if l.key == k ==> Clean(w, l) {
      StepRefinesLifecycleIff(w, l, k);
      NextNeverRises(PhaseOf(w, k), PhaseOf(Step(w, l), k));
    } else {
      F.CallsNameTheRecordedServer(w.machines[k].obj, SiteOf(w, k), EnvSeen(w, k, l.menv));
      CreateReplyCanForgeReady(w, k, l.menv, l.made);
    }
  }

  lemma NextNeverRises(p: Phase, q: Phase)
    requires PhaseNext(p, q)
    ensures Rank(q) <= Rank(p)
  {
  }

  /** Nothing outside the machine keeps its reconcile from reaching the cloud. */
  predicate GatesOpen(w: World, k: Key, env: M.MachineEnv) {
    && MachinePresent(w, k) && !w.machines[k].obj.deleting
    && env.gate == M.Open && env.secret == M.Available
    && ClusterPresent(w, w.machines[k].place.cluster)
    && SiteOf(w, k).infrastructureReady
  }

  /** The environment answers a create with a server whose id can be and is written down. */
  predicate CreateSucceeds(w: World, k: Key, env: M.MachineEnv) {
    && GatesOpen(w, k, env) && Delivered(env.reply) && env.reply.body.value.bmcServerID != "" && env.patch.meta
    && w.machines[k].obj.annotations.Some?
    && !(SiteOf(w, k).controlPlane && SiteOf(w, k).vip == NONE && SiteOf(w, k).allocationID == "")
  }

  /** The environment answers with a server that is powered on, and the status patch arrives. */
  predicate PoweredOnArrives(w: World, k: Key, env: M.MachineEnv) {
    GatesOpen(w, k, env) && Delivered(env.reply) && env.reply.body.value.bmcStatus == PoweredOn && env.patch.status
  }

  /** A successful create takes a machine from no server to provisioned, or straight to ready if its reply says so. */
  lemma SuccessfulCreateLowersRank(w: World, k: Key, env: M.MachineEnv, made: Option<string>)
    requires CreateSucceeds(w, k, env) && PhaseOf(w, k) == NoServer
    ensures var l := ReconcileMachine(k, env, made);
            var p := PhaseOf(Step(w, l), k);
            && (if Clean(w, l) then p.Provisioned? else p.Ready?)
            && p.id == env.reply.body.value.bmcServerID
  {
    var m := w.machines[k].obj;
    var site, seen := SiteOf(w, k), EnvSeen(w, k, env);
    F.IdentityComesFromCreateReply(m, site, seen);
    F.FinalizerMoves(m, site, seen);
  }

  /** A persisted powered-on poll of a machine that has its server makes it ready. */
  lemma PoweredOnPollReachesReady(w: World, k: Key, env: M.MachineEnv, made: Option<string>)
    requires ServersInv(w) && PoweredOnArrives(w, k, env) && M.GetMachineID(w.machines[k].obj) != ""
    ensures PhaseOf(Step(w, ReconcileMachine(k, env, made)), k).Ready?
  {
    assert MachineOK(w.servers, w.log, k, w.machines[k]);
    var m := w.machines[k].obj;
    SyncKeepsStatus(m.(finalizers := m.finalizers + {MachineFinalizer}), SiteOf(w, k).hostname, env.reply, env.node);
  }

  /** A successful create leaves the machine with a server. */
  lemma CreatedMachineHasServer(w: World, k: Key, env: M.MachineEnv, made: Option<string>)
    requires CreateSucceeds(w, k, env)
    ensures var w' := Step(w, ReconcileMachine(k, env, made));
            k in w'.machines && M.GetMachineID(w'.machines[k].obj) != ""
  {
    IdentityStays(w, ReconcileMachine(k, env, made), k);
    if M.GetMachineID(w.machines[k].obj) == "" {
      F.IdentityComesFromCreateReply(w.machines[k].obj, SiteOf(w, k), EnvSeen(w, k, env));
    }
  }

  /** After a successful create and anything at all, the machine has its server. */
  lemma CreatedMachineKeepsServer(w: World, k: Key, env: M.MachineEnv, made: Option<string>, between: seq<Label>)
    requires ServersInv(w) && CreateSucceeds(w, k, env)
    requires var l := ReconcileMachine(k, env, made); Allowed(w, l) && ValidRun(Step(w, l), between)
    ensures var w2 := Run(Step(w, ReconcileMachine(k, env, made)), between);
            ServersInv(w2) && k in w2.machines && M.GetMachineID(w2.machines[k].obj) != ""
  {
    var l := ReconcileMachine(k, env, made);
    StepKeepsServersInv(w, l);
    CreatedMachineHasServer(w, k, env, made);
    ServedMachineEndures(Step(w, l), between, k);
    RunKeepsServersInv(Step(w, l), between);
  }

  /** A powered-on poll that arrives at a machine with a server makes it ready for good. */
  lemma PoweredOnPollIsFinal(w: World, k: Key, env: M.MachineEnv, made: Option<string>, after: seq<Label>)
    requires ServersInv(w) && PoweredOnArrives(w, k, env) && M.GetMachineID(w.machines[k].obj) != ""
    requires var l := ReconcileMachine(k, env, made); Allowed(w, l) && ValidRun(Step(w, l), after)
    ensures var p := PhaseOf(Run(Step(w, ReconcileMachine(k, env, made)), after), k); p.Ready? || p.Gone?
  {
    var l := ReconcileMachine(k, env, made);
    PoweredOnPollReachesReady(w, k, env, made);
    IdentityStays(w, l, k);
    StepKeepsServersInv(w, l);
    ServedMachineEndures(Step(w, l), after, k);
  }

  /**
   After one successful create, the next time the cloud reports a server powered on and the
   status patch arrives, the machine is ready; it stays ready, whatever happened before and in
   between and whatever happens later, until it goes away.
   */
  lemma CreateThenPowerOnConverges(before: seq<Label>, k: Key, env1: M.MachineEnv, made1: Option<string>,
                                   between: seq<Label>, env2: M.MachineEnv, made2: Option<string>, after: seq<Label>)
    requires var run := before + ([ReconcileMachine(k, env1, made1)] + (between + ([ReconcileMachine(k, env2, made2)] + after)));
             ValidRun(EMPTY_WORLD, run)
    requires CreateSucceeds(Run(EMPTY_WORLD, before), k, env1)
    requires PoweredOnArrives(Run(Run(Run(EMPTY_WORLD, before), [ReconcileMachine(k, env1, made1)]), between), k, env2)
    ensures var run := before + ([ReconcileMachine(k, env1, made1)] + (between + ([ReconcileMachine(k, env2, made2)] + after)));
            var p := PhaseOf(Run(EMPTY_WORLD, run), k);
            p.Ready? || p.Gone?
  {
    var first, second := [ReconcileMachine(k, env1, made1)], [ReconcileMachine(k, env2, made2)];
    var w0 := Run(EMPTY_WORLD, before);
    RunSplits(EMPTY_WORLD, before, first + (between + (second + after)));
    RunSplits(w0, first, between + (second + after));
    RunOne(w0, first[0]);
    RunSplits(Run(w0, first), between, second + after);
    var w2 := Run(Run(w0, first), between);
    RunSplits(w2, second, after);
    RunOne(w2, second[0]);
    RunKeepsServersInv(EMPTY_WORLD, before);
    CreatedMachineKeepsServer(w0, k, env1, made1, between);
    PoweredOnPollIsFinal(w2, k, env2, made2, after);
  }
}
