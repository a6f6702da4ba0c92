/** What the controller must have seen before it takes a step, on the fields of the objects it read. Every
    statement is about all runs. */
module Gates {
  import opened Types
  import opened Slot
  import opened Classify
  import opened Cluster
  import opened Invariants
  import opened Safety
  import opened Passes

  /** A slot is marked, and a drain started, only on a report that the image is staged and not booted, and
      only if neither Node nor claim, as read, shows a disruption: the Node is not being deleted and has
      neither Karpenter taint, and the claim, if the Node names one, exists, is not being deleted and is
      neither rebooting nor disrupted nor terminating. */
  lemma ServedOnlyIfStagedAndCalm(s: State, acts: seq<Action>, k: nat, n: Name)
    requires Legal(s, acts) && k < |acts| && (acts[k] == On(n, MarkSlot) || acts[k] == On(n, StartDrain))
    ensures n in At(s, acts, k).members
    ensures var l := At(s, acts, k).members[n].local; l.own.Some? && l.node.Some?
    ensures var bn := At(s, acts, k).members[n].local.own.value;
            && bn.desired.Digested? && !bn.status.degraded && bn.status.booted.Some? && bn.status.idle.Some?
            && bn.status.idle.value.status == False && bn.status.idle.value.reason == ReasonStaged
            && bn.status.booted.value.contentDigest != bn.desired.digest
            && forall repo :: bn.status.booted.value.pullspec != Digested(repo, bn.desired.digest)
    ensures var node := At(s, acts, k).members[n].local.node.value;
            && !node.deleting
            && Taint(KarpenterRebooting, NoSchedule) !in node.taints
            && Taint(KarpenterDisrupted, NoSchedule) !in node.taints
    ensures var claim := At(s, acts, k).members[n].local.claim;
            && !claim.Gone?
            && (claim.Found? ==> !claim.claim.deleting && !claim.claim.rebooting
                                 && !claim.claim.disrupted && !claim.claim.terminating)
    ensures acts[k] == On(n, StartDrain) ==>
              var bn := At(s, acts, k).members[n].local.own.value; HasSlot(bn) && !bn.approved
  {
    AtStep(s, acts, k);
    var t := At(s, acts, k);
    ServingGuard(t.pass, t.members[n].local, t.members[n].drain, acts[k].op);
  }

  lemma ServingGuard(pass: Pass, l: Local, drain: Option<Drain>, op: Op)
    requires CodeGuard(pass, l, drain, op) && (op == MarkSlot || op == StartDrain)
    ensures l.own.Some? && l.node.Some? && !DisruptionActive(l.node.value, l.claim) && ClassifyNode(l.own.value) == Some(Staged)
    ensures op == StartDrain ==> HasSlot(l.own.value) && !l.own.value.approved
  {
  }

  /** A slot is freed only on a report that the node is not degraded and booted the desired image, by
      reference or by content, and only if its Node, as read, is Ready. */
  lemma FreedOnlyIfHealthy(s: State, acts: seq<Action>, k: nat, n: Name)
    requires Legal(s, acts) && k < |acts| && acts[k] == On(n, Unmark)
    ensures n in At(s, acts, k).members
    ensures var l := At(s, acts, k).members[n].local;
            && l.own.Some? && l.node.Some? && l.node.value.ready == True && HasSlot(l.own.value)
            && var bn := l.own.value;
               && bn.desired.Digested? && !bn.status.degraded && bn.status.booted.Some?
               && var entry := bn.status.booted.value;
                  || entry.contentDigest == bn.desired.digest
                  || (entry.pullspec.Digested? && entry.pullspec.digest == bn.desired.digest)
  {
    AtStep(s, acts, k);
  }

  /** A Node that is being deleted is not restored for leaving the pool; it is restored only for a healthy
      slot holder, or for a node that leaves with its Node staying. */
  lemma RestoredOnlyIfStaying(s: State, acts: seq<Action>, k: nat, n: Name)
    requires Legal(s, acts) && k < |acts| && acts[k] == On(n, RestoreNode)
    ensures n in At(s, acts, k).members
    ensures var t := At(s, acts, k);
            var l := t.members[n].local;
            && t.pass.Busy? && l.own.Some? && l.node.Some?
            && (t.pass.stage != Rolling ==> !l.node.value.deleting && (t.pass.stage == Syncing ==> !l.listed))
            && (t.pass.stage == Rolling ==> l.node.value.ready == True && HasSlot(l.own.value))
  {
    AtStep(s, acts, k);
  }

  predicate ApprovedNow(s: State, n: Name) {
    n in s.members && s.members[n].bn.Some? && s.members[n].bn.value.approved
  }

  lemma OpApproves(pass: Pass, m: Member, op: Op)
    requires Good(pass, m) && Guard(pass, m, op) && !(m.bn.Some? && m.bn.value.approved)
    requires Effect(pass, m, op).bn.Some? && Effect(pass, m, op).bn.value.approved
    ensures op == Collect(true) && m.drain == Some(Finished(true)) && pass.Busy? && pass.stage == Rolling
    ensures m.bn.Some? && m.bn.value.owner == Some(pass.pool)
  {
    if !ChangesMarks(op) { OtherOpKeepsMarks(pass, m, op); }
  }

  /** A node is approved only by a rollout pass of its owner that collects the result of a drain that
      succeeded. */
  lemma ApprovedOnlyByDrain(s: State, acts: seq<Action>, k: nat, n: Name)
    requires Inv(s) && Legal(s, acts) && k < |acts|
    requires !ApprovedNow(At(s, acts, k), n) && ApprovedNow(At(s, acts, k + 1), n)
    ensures acts[k] == On(n, Collect(true)) && n in At(s, acts, k).members
    ensures var t := At(s, acts, k);
            && t.members[n].drain == Some(Finished(true)) && t.pass.Busy? && t.pass.stage == Rolling
            && t.members[n].bn.Some? && t.members[n].bn.value.owner == Some(t.pass.pool)
  {
    AtStep(s, acts, k);
    AtInv(s, acts, k);
    StepApproves(At(s, acts, k), acts[k], n);
  }

  lemma StepApproves(s: State, a: Action, n: Name)
    requires AllGood(s) && Enabled(s, a) && !ApprovedNow(s, n) && ApprovedNow(Apply(s, a), n)
    ensures a == On(n, Collect(true)) && n in s.members && s.members[n].drain == Some(Finished(true))
    ensures s.pass.Busy? && s.pass.stage == Rolling
    ensures s.members[n].bn.Some? && s.members[n].bn.value.owner == Some(s.pass.pool)
  {
    if a.On? && a.name == n {
      assert Good(s.pass, s.members[n]);
      OpApproves(s.pass, s.members[n], a.op);
    }
  }

  // ---- What the controller leaves alone -----------------------------------------------------------------

  /** Of a Node the controller writes cordon, annotations and label; taints it only takes off, and only the
      startup taint. The status belongs to the daemon, and the host is not its business. */
  predicate RestIsLeft(m: Member, m': Member) {
    && m'.host == m.host && m'.found == m.found && (m'.node.Some? <==> m.node.Some?)
    && (m.bn.Some? && m'.bn.Some? ==> m'.bn.value.status == m.bn.value.status)
    && (m.node.Some? ==>
          && m'.node.value.ready == m.node.value.ready && m'.node.value.deleting == m.node.value.deleting
          && m'.node.value.selectedBy == m.node.value.selectedBy
          && (m'.node.value.taints == m.node.value.taints
              || (OwnsTaint in Record(m) && m'.node.value.taints == WithoutStartupTaint(m.node.value.taints))))
  }

  lemma OpLeavesTheRest(pass: Pass, m: Member, op: Op)
    requires CodeGuard(pass, m.local, m.drain, op) && ApiGuard(pass, m, op) && !EnvGuard(pass, m, op)
    requires m.local.own.Some? ==> m.bn.Some? && SameButStatus(m.local.own.value, m.bn.value)
    ensures RestIsLeft(m, Effect(pass, m, op))
  {
    if op in {LabelOn, LabelOff, RestoreNode, DropTaint, FenceNode} {
      NodeOpLeavesTheRest(pass, m, op);
    } else {
      OtherOpLeavesTheRest(pass, m, op);
    }
  }

  lemma NodeOpLeavesTheRest(pass: Pass, m: Member, op: Op)
    requires CodeGuard(pass, m.local, m.drain, op) && ApiGuard(pass, m, op)
    requires m.local.own.Some? ==> m.bn.Some? && SameButStatus(m.local.own.value, m.bn.value)
    requires op in {LabelOn, LabelOff, RestoreNode, DropTaint, FenceNode}
    ensures RestIsLeft(m, Effect(pass, m, op))
  {
  }

  lemma OtherOpLeavesTheRest(pass: Pass, m: Member, op: Op)
    requires CodeGuard(pass, m.local, m.drain, op) && ApiGuard(pass, m, op) && !EnvGuard(pass, m, op)
    requires m.local.own.Some? ==> m.bn.Some?
    requires op !in {LabelOn, LabelOff, RestoreNode, DropTaint, FenceNode}
    ensures var m' := Effect(pass, m, op);
            && m'.node == m.node && m'.host == m.host && m'.found == m.found
            && (m.bn.Some? && m'.bn.Some? ==> m'.bn.value.status == m.bn.value.status)
  {
  }

  /** No step of the controller, on whatever stale copy, changes a part of a Node that others write. */
  lemma ControllerLeavesTheRest(s: State, acts: seq<Action>, k: nat, n: Name)
    requires Inv(s) && Legal(s, acts) && k < |acts| && !Environmental(acts[k]) && n in At(s, acts, k).members
    ensures n in At(s, acts, k + 1).members
    ensures RestIsLeft(At(s, acts, k).members[n], At(s, acts, k + 1).members[n])
  {
    AtStep(s, acts, k);
    AtInv(s, acts, k);
    StepLeavesTheRest(At(s, acts, k), acts[k], n);
  }

  lemma StepLeavesTheRest(s: State, a: Action, n: Name)
    requires AllGood(s) && Enabled(s, a) && !Environmental(a) && n in s.members
    ensures n in Apply(s, a).members && RestIsLeft(s.members[n], Apply(s, a).members[n])
  {
    if a.On? && a.name == n {
      assert Good(s.pass, s.members[n]);
      OpLeavesTheRest(s.pass, s.members[n], a.op);
    }
  }

  // ---- Drains -------------------------------------------------------------------------------------------

  function DrainAt(s: State, n: Name): Option<Drain> {
    if n in s.members then s.members[n].drain else None
  }

  lemma OpOnDrain(pass: Pass, m: Member, op: Op)
    requires Guard(pass, m, op) && (m.local.own.Some? ==> m.bn.Some?)
    ensures var d, d' := m.drain, Effect(pass, m, op).drain;
            || d' == d
            || (op == StartDrain && d.None? && d' == Some(Running))
            || (op.DrainEnds? && d == Some(Running) && d' == Some(Finished(op.ok)))
            || (op.Collect? && d.Some? && d.value.Finished? && d'.None?)
            || (op == CancelDrain && d'.None?)
  {
  }

  /** The life of a drain: the controller starts it where there is none, it ends by itself with its own
      result, and only then is the result collected; a pass that removes the node cancels it, and a restart
      loses it. */
  lemma DrainLives(s: State, acts: seq<Action>, k: nat, n: Name)
    requires Inv(s) && Legal(s, acts) && k < |acts| && DrainAt(At(s, acts, k + 1), n) != DrainAt(At(s, acts, k), n)
    ensures var d, d', a := DrainAt(At(s, acts, k), n), DrainAt(At(s, acts, k + 1), n), acts[k];
            || (a == On(n, StartDrain) && d.None? && d' == Some(Running))
            || (a.On? && a.name == n && a.op.DrainEnds? && d == Some(Running) && d' == Some(Finished(a.op.ok)))
            || (a.On? && a.name == n && a.op.Collect? && d.Some? && d.value.Finished? && d'.None?)
            || (a == On(n, CancelDrain) && d'.None?)
            || (a == Restart && d'.None?)
  {
    AtStep(s, acts, k);
    AtInv(s, acts, k);
    StepOnDrain(At(s, acts, k), acts[k], n);
  }

  lemma StepOnDrain(s: State, a: Action, n: Name)
    requires AllGood(s) && Enabled(s, a) && DrainAt(Apply(s, a), n) != DrainAt(s, n)
    ensures var d, d' := DrainAt(s, n), DrainAt(Apply(s, a), n);
            || (a == On(n, StartDrain) && d.None? && d' == Some(Running))
            || (a.On? && a.name == n && a.op.DrainEnds? && d == Some(Running) && d' == Some(Finished(a.op.ok)))
            || (a.On? && a.name == n && a.op.Collect? && d.Some? && d.value.Finished? && d'.None?)
            || (a == On(n, CancelDrain) && d'.None?)
            || (a == Restart && d'.None?)
  {
    if a.On? && a.name == n { OpOnDrain(s.pass, s.members[n], a.op); }
  }

  /** A Node that registers comes with its own claim and host; what is left over under its name stays. */
  lemma NewcomerIsItself(s: State, n: Name, node: Node, claim: ClaimRef, host: Host)
    requires Enabled(s, Joins(n, node, claim, host))
    ensures var t := Apply(s, Joins(n, node, claim, host));
            && n in t.members && t.members[n].node == Some(node) && t.members[n].claim == claim && t.members[n].host == host
            && (if n in s.members then t.members[n].bn == s.members[n].bn && t.members[n].drain == s.members[n].drain
                else t.members[n].bn.None? && t.members[n].drain.None?)
            && forall k | k in s.members && k != n :: k in t.members && t.members[k] == s.members[k]
  {
  }

  /** A restart loses every drain and all the pass remembers, and nothing that is stored. */
  lemma RestartForgets(s: State, n: Name)
    requires n in s.members
    ensures var t := Apply(s, Restart);
            && t.pass.Idle? && t.pools == s.pools && n in t.members && t.members[n].drain.None?
            && t.members[n].local == NO_LOCAL
            && t.members[n] == s.members[n].(drain := None, local := NO_LOCAL)
  {
  }
}
