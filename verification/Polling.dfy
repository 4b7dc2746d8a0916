/** Histories of polls and creates: repetitions change nothing, and outages and rejections are reported once. */
module Polling {
  import opened Wrappers
  import opened Api
  import M = MachineModel
  import C = ClusterModel
  import F = MachineFacts
  import T = ServerTheorems
  import TransitionSystem

  // ---------- machines ----------

  /** What one poll of a server brings: the reply, and what a node lookup would find. */
  datatype Poll = Poll(reply: Reply<MachineStatus>, node: M.NodeLookup)

  function Synchronized(m: Machine, hostname: string, p: Poll): Machine {
    M.SyncEffect(m, hostname, p.reply, p.node).obj
  }

  /** The machine after a history of polls, each of them persisted. */
  function AfterPolls(m: Machine, hostname: string, polls: seq<Poll>): Machine
    decreases |polls|
  {
    if polls == [] then m else AfterPolls(Synchronized(m, hostname, polls[0]), hostname, polls[1..])
  }

  function PollEvents(m: Machine, hostname: string, polls: seq<Poll>): seq<Reason>
    decreases |polls|
  {
    if polls == [] then []
    else
      M.SyncEffect(m, hostname, polls[0].reply, polls[0].node).events
      + PollEvents(Synchronized(m, hostname, polls[0]), hostname, polls[1..])
  }

  /** A history without its adjacent repetitions. */
  function Squeezed<T(==)>(xs: seq<T>): seq<T>
    decreases |xs|
  {
    if |xs| <= 1 then xs
    else if xs[0] == xs[1] then Squeezed(xs[1..])
    else [xs[0]] + Squeezed(xs[1..])
  }

  /**
   The one poll whose repetition matters: the server is on, the recorded status already says
   so, the machine is not ready yet, and binding the node dereferences a nil provider id.
   */
  predicate Stranded(m: Machine, p: Poll) {
    && Delivered(p.reply) && p.reply.body.value.bmcStatus == PoweredOn
    && m.status.bmcStatus == PoweredOn && !m.status.ready
    && m.status.nodeRef.None? && m.providerID.None?
    && p.node.NodeFound? && p.node.write != M.HelperFailed
  }

  /** The machine after a poll that delivers nothing: only the verdict changes. */
  lemma FailedPollResult(m: Machine, hostname: string, p: Poll)
    requires !Delivered(p.reply)
    ensures var m' := Synchronized(m, hostname, p);
            if Outage(p.reply) then m' == M.WithStatus(m, Stale)
            else if p.reply.code == 403 then m' == M.WithStatus(m, Orphaned)
            else if p.reply.code == 400 || p.reply.code == 401 then
              m' == (if m.status.bmcStatus == Irreconcilable then m
                     else M.MadeIrreconcilable(m, InvalidConfiguration, ReadCode(p.reply.code)))
            else m' == m
  {
  }

  /** The machine after a delivered poll of a server that is not powered on. */
  lemma OtherPollResult(m: Machine, hostname: string, p: Poll)
    requires Delivered(p.reply) && p.reply.body.value.bmcStatus != PoweredOn
    ensures Synchronized(m, hostname, p) ==
              if m.status.bmcStatus == p.reply.body.value.bmcStatus then m else M.Updated(m, p.reply.body.value)
  {
  }

  lemma UpdatedTwice(m: Machine, s: MachineStatus)
    requires s.bmcStatus != PoweredOn
    ensures M.Updated(M.Updated(m, s), s) == M.Updated(m, s)
  {
  }

  /** The machine after a delivered powered-on poll, apart from the node. */
  lemma PoweredOnPollResult(m: Machine, hostname: string, p: Poll)
    requires Delivered(p.reply) && p.reply.body.value.bmcStatus == PoweredOn
    ensures var s := p.reply.body.value;
            var m' := Synchronized(m, hostname, p);
            var node := M.Bound(m, hostname, p.node).obj.status.nodeRef;
            if m.status.bmcStatus != PoweredOn || (!m.status.ready && !Stranded(m, p)) then
              m' == M.MadeReady(M.Merged(m, s)).(status := m'.status) &&
              m'.status == M.MadeReady(M.Merged(m, s)).status.(nodeRef := node)
            else
              m' == m.(status := m.status.(nodeRef := node))
  {
    var s := p.reply.body.value;
    var m1 := if m.status.bmcStatus != PoweredOn then M.Updated(m, s) else m;
    F.BoundChangesNodeOnly(m1, hostname, p.node);
    F.BoundAlike(m, m1, hostname, p.node);
  }

  /** Repeating a poll changes nothing, in every state and for every reply, unless the poll is stranded. */
  lemma RepeatedPollIsIdleUnlessStranded(m: Machine, hostname: string, p: Poll)
    ensures Synchronized(Synchronized(m, hostname, p), hostname, p) == Synchronized(m, hostname, p) <==> !Stranded(m, p)
  {
    if Delivered(p.reply) && p.reply.body.value.bmcStatus == PoweredOn {
      var m1 := Synchronized(m, hostname, p);
      PoweredOnPollResult(m, hostname, p);
      PoweredOnPollResult(m1, hostname, p);
      BindingTwice(m, m1, hostname, p.node);
    } else if Delivered(p.reply) {
      OtherPollResult(m, hostname, p);
      OtherPollResult(Synchronized(m, hostname, p), hostname, p);
      UpdatedTwice(m, p.reply.body.value);
    } else {
      FailedPollResult(m, hostname, p);
      FailedPollResult(Synchronized(m, hostname, p), hostname, p);
    }
  }

  /** No machine that has its server ever comes to be stranded. */
  lemma NoServerIsStranded(w: TransitionSystem.World, labels: seq<TransitionSystem.Label>, k: string, p: Poll)
    requires T.Reached(w, labels) && k in w.machines && M.GetMachineID(w.machines[k].obj) != ""
    ensures !Stranded(w.machines[k].obj, p)
  {
    T.ProviderIDSpellsServer(w, labels, k);
  }

  lemma BindingTwice(m: Machine, m1: Machine, hostname: string, node: M.NodeLookup)
    requires m1.status.nodeRef == M.Bound(m, hostname, node).obj.status.nodeRef
    ensures M.Bound(m1, hostname, node).obj.status.nodeRef == m1.status.nodeRef
  {
  }

  /** Deleting adjacent repetitions from any history of polls leaves the machine as it ends up. */
  lemma {:induction false} RepetitionsDoNotMatter(m: Machine, hostname: string, polls: seq<Poll>)
    requires m.providerID.Some?
    ensures AfterPolls(m, hostname, Squeezed(polls)) == AfterPolls(m, hostname, polls)
    decreases |polls|
  {
    if |polls| >= 2 {
      var m1 := Synchronized(m, hostname, polls[0]);
      F.SyncTouchesStatusOnly(m, hostname, polls[0].reply, polls[0].node);
      if polls[0] == polls[1] {
        RepeatedPollIsIdleUnlessStranded(m, hostname, polls[0]);
        RepetitionsDoNotMatter(m, hostname, polls[1..]);
        assert AfterPolls(m1, hostname, polls[1..]) == AfterPolls(m1, hostname, polls[2..]) by {
          assert polls[1..][1..] == polls[2..];
        }
        assert AfterPolls(m, hostname, polls[1..]) == AfterPolls(m1, hostname, polls[2..]) by {
          assert polls[1..][1..] == polls[2..];
        }
      } else {
        RepetitionsDoNotMatter(m1, hostname, polls[1..]);
        assert ([polls[0]] + Squeezed(polls[1..]))[1..] == Squeezed(polls[1..]);
      }
    }
  }

  /** No poll changes the recorded status silently. */
  lemma StatusChangesAreReported(m: Machine, hostname: string, p: Poll)
    ensures Synchronized(m, hostname, p).status.bmcStatus != m.status.bmcStatus ==>
              M.SyncEffect(m, hostname, p.reply, p.node).events != []
  {
  }

  /** A block of outages, in any mix, is reported exactly once, or not at all when the machine is already stale. */
  lemma {:induction false} OutagesAreReportedOnce(m: Machine, hostname: string, polls: seq<Poll>)
    requires forall p :: p in polls ==> Outage(p.reply)
    ensures |PollEvents(m, hostname, polls)| == if polls == [] || m.status.bmcStatus == Stale then 0 else 1
    ensures polls != [] ==> AfterPolls(m, hostname, polls) == M.WithStatus(m, Stale)
    decreases |polls|
  {
    if polls != [] {
      assert polls[0] in polls;
      OutagesAreReportedOnce(Synchronized(m, hostname, polls[0]), hostname, polls[1..]);
    }
  }

  /**
   Failed servers are not edge-triggered: the recorded status becomes irreconcilable, never
   error, so every further poll that reports the error is a change again.
   */
  lemma {:induction false} ErrorsAreReportedEveryTime(m: Machine, hostname: string, polls: seq<Poll>)
    requires forall p :: p in polls ==> Delivered(p.reply) && p.reply.body.value.bmcStatus == Error
    ensures |PollEvents(m, hostname, polls)| == if m.status.bmcStatus == Error then 0 else |polls|
    decreases |polls|
  {
    if polls != [] {
      assert polls[0] in polls;
      ErrorsAreReportedEveryTime(Synchronized(m, hostname, polls[0]), hostname, polls[1..]);
    }
  }

  /** The answers to a create with which BMC declines to build the server as asked. */
  predicate Rejection(reply: Reply<MachineStatus>) {
    reply.Response? && (reply.code == 400 || reply.code == 401 || reply.code == 403 || reply.code == 409)
  }

  /** The machine after a history of create attempts, each of them persisted. */
  function AfterCreates(m: Machine, call: Call, replies: seq<Reply<MachineStatus>>): Machine
    decreases |replies|
  {
    if replies == [] then m else AfterCreates(M.CreateReplyEffect(m, call, replies[0]).obj, call, replies[1..])
  }

  function CreateEvents(m: Machine, call: Call, replies: seq<Reply<MachineStatus>>): seq<Reason>
    decreases |replies|
  {
    if replies == [] then []
    else
      M.CreateReplyEffect(m, call, replies[0]).events
      + CreateEvents(M.CreateReplyEffect(m, call, replies[0]).obj, call, replies[1..])
  }

  /**
   A block of rejected creates, in any mix, is reported exactly once, or not at all when the machine
   is already irreconcilable, and leaves the reason of its first rejection.
   */
  lemma {:induction false} RejectionsAreReportedOnce(m: Machine, call: Call, replies: seq<Reply<MachineStatus>>)
    requires forall r :: r in replies ==> Rejection(r)
    ensures |CreateEvents(m, call, replies)| == if replies == [] || m.status.bmcStatus == Irreconcilable then 0 else 1
    ensures if replies == [] || m.status.bmcStatus == Irreconcilable then AfterCreates(m, call, replies) == m
            else replies[0].Response?
                 && AfterCreates(m, call, replies) ==
                      M.MadeIrreconcilable(m, InvalidConfiguration, CreateCode(replies[0].code))
    decreases |replies|
  {
    if replies != [] {
      assert replies[0] in replies;
      RejectionsAreReportedOnce(M.CreateReplyEffect(m, call, replies[0]).obj, call, replies[1..]);
    }
  }

  // ---------- clusters ----------

  type BlockReply = Reply<ClusterStatus>

  function ClusterSynchronized(c: Cluster, reply: BlockReply): Cluster {
    C.SyncEffect(c, reply).obj
  }

  function AfterBlockPolls(c: Cluster, polls: seq<BlockReply>): Cluster
    decreases |polls|
  {
    if polls == [] then c else AfterBlockPolls(ClusterSynchronized(c, polls[0]), polls[1..])
  }

  function BlockPollEvents(c: Cluster, polls: seq<BlockReply>): seq<Reason>
    decreases |polls|
  {
    if polls == [] then []
    else C.SyncEffect(c, polls[0]).events + BlockPollEvents(ClusterSynchronized(c, polls[0]), polls[1..])
  }

  /** Repeating a poll of an IP block changes nothing, in every state and for every reply. */
  lemma RepeatedBlockPollIsIdle(c: Cluster, reply: BlockReply)
    ensures ClusterSynchronized(ClusterSynchronized(c, reply), reply) == ClusterSynchronized(c, reply)
  {
  }

  lemma {:induction false} BlockRepetitionsDoNotMatter(c: Cluster, polls: seq<BlockReply>)
    ensures AfterBlockPolls(c, Squeezed(polls)) == AfterBlockPolls(c, polls)
    decreases |polls|
  {
    if |polls| >= 2 {
      var c1 := ClusterSynchronized(c, polls[0]);
      if polls[0] == polls[1] {
        RepeatedBlockPollIsIdle(c, polls[0]);
        BlockRepetitionsDoNotMatter(c, polls[1..]);
        assert polls[1..][1..] == polls[2..];
        assert AfterBlockPolls(c1, polls[1..]) == AfterBlockPolls(c1, polls[2..]);
        assert AfterBlockPolls(c, polls[1..]) == AfterBlockPolls(c1, polls[2..]);
      } else {
        BlockRepetitionsDoNotMatter(c1, polls[1..]);
        assert ([polls[0]] + Squeezed(polls[1..]))[1..] == Squeezed(polls[1..]);
      }
    }
  }

  /** A poll makes a cluster ready exactly when it delivers the status its VIP manager waits for. */
  lemma BlockPollReadiness(c: Cluster, reply: BlockReply)
    ensures ClusterSynchronized(c, reply).status.ready <==>
              || c.status.ready
              || (Delivered(reply) &&
                  var s := reply.body.value.bmcStatus;
                  (s == Assigned && c.vip == NONE) || (s == NotAssigned && c.vip == KUBEVIP))
  {
  }

  lemma BlockStatusChangesAreReported(c: Cluster, reply: BlockReply)
    ensures ClusterSynchronized(c, reply).status.bmcStatus != c.status.bmcStatus ==> C.SyncEffect(c, reply).events != []
  {
  }

  lemma {:induction false} BlockOutagesAreReportedOnce(c: Cluster, polls: seq<BlockReply>)
    requires forall p :: p in polls ==> Outage(p)
    ensures |BlockPollEvents(c, polls)| == if polls == [] || c.status.bmcStatus == Stale then 0 else 1
    ensures polls != [] ==> AfterBlockPolls(c, polls) == C.WithStatus(c, Stale)
    decreases |polls|
  {
    if polls != [] {
      assert polls[0] in polls;
      BlockOutagesAreReportedOnce(ClusterSynchronized(c, polls[0]), polls[1..]);
    }
  }
}
