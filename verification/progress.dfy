/** The rollout of one pool ends. With a cooperative environment no step raises a rank summed over
    the nodes, and whenever a pass leaves the rollout unfinished, the environment can lower it. */
module Progress {
  import opened Types
  import opened Slot
  import opened Classify
  import opened Cluster
  import opened Invariants
  import opened Passes
  import R = RolloutStates
  import S = Safety
  import D = Daemon

  /** The pool that is rolled out and its image. */
  datatype Goal = Goal(pool: Pool, image: Ref)

  predicate OnGoal(g: Goal, m: Member) {
    g.image.Digested? && InfoMatchesDigest(m.host.booted, g.image.digest)
  }

  predicate StagedGoal(g: Goal, m: Member) {
    g.image.Digested? && InfoMatchesDigest(m.host.staged, g.image.digest)
  }

  // ---- The rank -----------------------------------------------------------------------------

  function Bit(b: bool): nat {
    if b then 1 else 0
  }

  /** How far approval is: through slot, drain and its result. */
  function DrainRank(bn: BootcNode, drain: Option<Drain>): nat {
    if bn.approved then 0
    else match drain
      case Some(Finished(true)) => 1
      case Some(Running) => 2
      case None => 3
      case Some(Finished(false)) => 4
  }

  /** Work left on a host that does not run the image yet. */
  function UpdateRank(g: Goal, m: Member): nat
    requires m.bn.Some?
  {
    var bn := m.bn.value;
    10 + Bit(!StagedGoal(g, m))
    + Bit(!(StagedGoal(g, m) && (bn.approved || ClassifyNode(bn) == Some(Staged))))
    + Bit(!HasSlot(bn))
    + DrainRank(bn, m.drain)
    + (if !m.host.rebootIssued then 1 else if StagedGoal(g, m) then 0 else 2)
  }

  /** Work left once it does: reporting it, becoming Ready, releasing slot and startup taint. */
  function ReleaseRank(m: Member): nat
    requires m.bn.Some?
  {
    if ClassifyNode(m.bn.value) != Some(UpToDate) then 6 + Bit(m.host.rebootIssued)
    else if Marked(m.bn.value) then 1 + Bit(!(m.node.Some? && m.node.value.ready == True))
    else 0
  }

  function NodeRank(g: Goal, m: Member): nat {
    if m.bn.None? then if Selects(g.pool, m) then 40 else 0
    else if !OwnedBy(m, g.pool) then 0
    else if m.bn.value.desired != g.image then 30
    else if OnGoal(g, m) then ReleaseRank(m)
    else UpdateRank(g, m)
  }

  /** Every unit of work that is left on any node; their number is the sum of the ranks. */
  function Work(g: Goal, s: State): set<(Name, int)> {
    set n, i | n in s.members && 0 <= i < NodeRank(g, s.members[n]) :: (n, i)
  }

  function Rank(g: Goal, s: State): nat {
    |Work(g, s)|
  }

  // ---- A cooperative environment --------------------------------------------------------------

  /** Every host has booted something, no status or copy of one claims the image for a host that does
      not run it, and what the pass has listed is still selected. */
  predicate Sound(g: Goal, pass: Pass, m: Member) {
    && g.image.Digested? && m.host.booted.Some?
    && (pass.Busy? && pass.pool == g.pool ==> pass.image == g.image && (m.local.listed ==> Selects(g.pool, m)))
    && (OwnedBy(m, g.pool) && !OnGoal(g, m) ==>
          && !InfoMatchesDigest(m.bn.value.status.booted, g.image.digest)
          && (m.local.own.Some? ==> !InfoMatchesDigest(m.local.own.value.status.booted, g.image.digest)))
  }

  predicate AllSound(g: Goal, s: State) {
    && g.image.Digested? && (s.pass.Busy? && s.pass.pool == g.pool ==> s.pass.image == g.image)
    && forall n | n in s.members :: Sound(g, s.pass, s.members[n])
  }

  /** Drains and staging succeed, hosts boot what is staged and stay on the image once they run it,
      daemons see their host and save their status, a node back on the image stays Ready, members
      stay, slots are assigned on fresh status, and the result of a successful drain reaches the pass
      that waits for it. */
  predicate CooperativeOp(g: Goal, m: Member, op: Op) {
    match op
    case DrainEnds(ok) => ok
    case DaemonRuns(probe, saved, reboots) =>
      saved && reboots && probe.readable && !probe.stageFailed && probe.staged == m.host.staged
    case Stages(entry) => m.bn.Some? && m.bn.value.desired.Digested? && InfoMatchesDigest(Some(entry), m.bn.value.desired.digest)
    case Boots(booted) =>
      if OnGoal(g, m) then InfoMatchesDigest(booted, g.image.digest)
      else booted == if m.host.staged.Some? then m.host.staged else m.host.booted
    case NodeChanges(ready, _, selectedBy, _) =>
      && m.node.Some? && (g.pool in selectedBy <==> g.pool in m.node.value.selectedBy)
      && (OnGoal(g, m) && m.node.value.ready == True ==> ready == True)
    case NodeGoes => false
    case DaemonRestarts => !m.host.rebootIssued
    case Collect(approve) =>
      m.drain == Some(Finished(true)) && OwnedBy(m, g.pool) && !m.bn.value.approved ==> approve
    case MarkSlot => m.bn.Some? && m.local.own.Some? && m.local.own.value.status == m.bn.value.status
    case Delete => !Selects(g.pool, m)
    case CancelDrain => !OwnedBy(m, g.pool)
    case _ => true
  }

  predicate Cooperative(g: Goal, s: State, a: Action) {
    match a
    case On(n, op) => n in s.members && CooperativeOp(g, s.members[n], op)
    case Begin(p, image) => p == g.pool ==> image == g.image
    case Restart => false
    case Joins(n, node, _, host) =>
      && g.pool !in node.selectedBy && host.booted.Some?
      && (n in s.members ==> !OwnedBy(s.members[n], g.pool))
    case _ => true
  }

  // ---- No step raises the rank ----------------------------------------------------------------

  lemma ReportRanks(g: Goal, pass: Pass, m: Member, op: Op)
    requires Sound(g, pass, m) && EnvGuard(pass, m, op) && CooperativeOp(g, m, op) && op.DaemonRuns?
    ensures Sound(g, pass, EnvEffect(pass, m, op)) && NodeRank(g, EnvEffect(pass, m, op)) <= NodeRank(g, m)
  {
  }

  lemma HostOpRanks(g: Goal, pass: Pass, m: Member, op: Op)
    requires Sound(g, pass, m) && EnvGuard(pass, m, op) && CooperativeOp(g, m, op) && (op.Boots? || op.Stages?)
    ensures Sound(g, pass, EnvEffect(pass, m, op)) && NodeRank(g, EnvEffect(pass, m, op)) <= NodeRank(g, m)
  {
  }

  lemma OtherEnvOpRanks(g: Goal, pass: Pass, m: Member, op: Op)
    requires Sound(g, pass, m) && EnvGuard(pass, m, op) && CooperativeOp(g, m, op)
    requires !op.DaemonRuns? && !op.Boots? && !op.Stages?
    ensures Sound(g, pass, EnvEffect(pass, m, op)) && NodeRank(g, EnvEffect(pass, m, op)) <= NodeRank(g, m)
  {
  }

  lemma EnvOpRanks(g: Goal, pass: Pass, m: Member, op: Op)
    requires Good(pass, m) && Sound(g, pass, m) && EnvGuard(pass, m, op) && CooperativeOp(g, m, op)
    ensures Sound(g, pass, Effect(pass, m, op)) && NodeRank(g, Effect(pass, m, op)) <= NodeRank(g, m)
  {
    match op
    case DaemonRuns(_, _, _) => ReportRanks(g, pass, m, op);
    case Boots(_) => HostOpRanks(g, pass, m, op);
    case Stages(_) => HostOpRanks(g, pass, m, op);
    case _ => OtherEnvOpRanks(g, pass, m, op);
  }

  lemma SlotOpRanks(g: Goal, pass: Pass, m: Member, op: Op)
    requires Good(pass, m) && Sound(g, pass, m) && CooperativeOp(g, m, op)
    requires CodeGuard(pass, m.local, m.drain, op) && ApiGuard(pass, m, op)
    requires op in {MarkSlot, StartDrain} || op.Collect?
    ensures Sound(g, pass, Effect(pass, m, op)) && NodeRank(g, Effect(pass, m, op)) <= NodeRank(g, m)
  {
    match op
    case MarkSlot => MarkRanks(g, pass, m);
    case Collect(approve) => CollectRanks(g, pass, m, approve);
    case _ =>
  }

  lemma MarkRanks(g: Goal, pass: Pass, m: Member)
    requires Good(pass, m) && Sound(g, pass, m) && CooperativeOp(g, m, MarkSlot)
    requires CodeGuard(pass, m.local, m.drain, MarkSlot)
    ensures Sound(g, pass, Effect(pass, m, MarkSlot)) && NodeRank(g, Effect(pass, m, MarkSlot)) <= NodeRank(g, m)
  {
  }

  lemma CollectRanks(g: Goal, pass: Pass, m: Member, approve: bool)
    requires Good(pass, m) && Sound(g, pass, m) && CooperativeOp(g, m, Collect(approve))
    requires CodeGuard(pass, m.local, m.drain, Collect(approve))
    ensures var m' := Effect(pass, m, Collect(approve)); Sound(g, pass, m') && NodeRank(g, m') <= NodeRank(g, m)
  {
  }

  /** A slot is freed only on a status that names the image, and such a status is true. */
  lemma ReleaseOpRanks(g: Goal, pass: Pass, m: Member, op: Op)
    requires Good(pass, m) && Sound(g, pass, m)
    requires CodeGuard(pass, m.local, m.drain, op) && ApiGuard(pass, m, op)
    requires op in {Unmark, ClearTaint}
    ensures Sound(g, pass, Effect(pass, m, op)) && NodeRank(g, Effect(pass, m, op)) <= NodeRank(g, m)
  {
    var m' := Effect(pass, m, op);
    assert m' == m.(bn := m'.bn, local := m'.local);
    assert m'.bn == Some(m.bn.value.(annotations := m'.bn.value.annotations));
    assert OwnedBy(m, g.pool) ==> OnGoal(g, m);
  }

  lemma MembershipOpRanks(g: Goal, pass: Pass, m: Member, op: Op)
    requires Good(pass, m) && Sound(g, pass, m) && CooperativeOp(g, m, op)
    requires CodeGuard(pass, m.local, m.drain, op) && ApiGuard(pass, m, op)
    requires op in {Create, Sync, Delete, CancelDrain}
    ensures Sound(g, pass, Effect(pass, m, op)) && NodeRank(g, Effect(pass, m, op)) <= NodeRank(g, m)
  {
  }

  predicate SameWork(m: Member, m': Member) {
    && m'.bn == m.bn && m'.host == m.host && m'.drain == m.drain && m'.local.own == m.local.own
    && m'.local.listed == m.local.listed
    && (m'.node.Some? <==> m.node.Some?)
    && (m.node.Some? ==> m'.node.value.ready == m.node.value.ready && m'.node.value.selectedBy == m.node.value.selectedBy)
  }

  lemma OtherOpSameWork(pass: Pass, m: Member, op: Op)
    requires Good(pass, m) && CodeGuard(pass, m.local, m.drain, op) && ApiGuard(pass, m, op)
    requires !op.Collect? && op !in {MarkSlot, Unmark, ClearTaint, StartDrain, Create, Sync, Delete, CancelDrain}
    ensures SameWork(m, Effect(pass, m, op))
  {
  }

  lemma SameWorkSameRank(g: Goal, pass: Pass, m: Member, m': Member)
    requires Sound(g, pass, m) && SameWork(m, m')
    ensures Sound(g, pass, m') && NodeRank(g, m') == NodeRank(g, m)
  {
  }

  lemma OpNeverRaises(g: Goal, pass: Pass, m: Member, op: Op)
    requires Good(pass, m) && Sound(g, pass, m) && Guard(pass, m, op) && CooperativeOp(g, m, op)
    ensures Sound(g, pass, Effect(pass, m, op)) && NodeRank(g, Effect(pass, m, op)) <= NodeRank(g, m)
  {
    if EnvGuard(pass, m, op) {
      EnvOpRanks(g, pass, m, op);
    } else if op in {MarkSlot, StartDrain} || op.Collect? {
      SlotOpRanks(g, pass, m, op);
    } else if op in {Unmark, ClearTaint} {
      ReleaseOpRanks(g, pass, m, op);
    } else if op in {Create, Sync, Delete, CancelDrain} {
      MembershipOpRanks(g, pass, m, op);
    } else {
      OtherOpSameWork(pass, m, op);
      SameWorkSameRank(g, pass, m, Effect(pass, m, op));
    }
  }

  lemma SoundIgnoresBudget(g: Goal, pass: Pass, pass': Pass, m: Member)
    requires Sound(g, pass, m)
    requires pass'.Busy? ==> pass.Busy? && pass.pool == pass'.pool && pass.image == pass'.image
    ensures Sound(g, pass', m)
  {
  }

  /** Work is compared node by node. */
  lemma RankFromNodes(g: Goal, s: State, t: State)
    requires forall n | n in t.members ::
               if n in s.members then NodeRank(g, t.members[n]) <= NodeRank(g, s.members[n])
               else NodeRank(g, t.members[n]) == 0
    ensures Rank(g, t) <= Rank(g, s)
    ensures (exists n | n in s.members && n in t.members :: NodeRank(g, t.members[n]) < NodeRank(g, s.members[n]))
            ==> Rank(g, t) < Rank(g, s)
  {
    var x, y := Work(g, t), Work(g, s);
    forall w | w in x
      ensures w in y
    {
      assert w.0 in t.members && 0 <= w.1 < NodeRank(g, t.members[w.0]);
      assert (w.0, w.1) == w;
    }
    SmallerSet(x, y);
    if n :| n in s.members && n in t.members && NodeRank(g, t.members[n]) < NodeRank(g, s.members[n]) {
      var w := (n, NodeRank(g, t.members[n]) as int);
      assert w in y && w !in x;
    }
  }

  lemma OpRanks(g: Goal, s: State, n: Name, op: Op)
    requires AllGood(s) && AllSound(g, s) && Enabled(s, On(n, op)) && Cooperative(g, s, On(n, op))
    ensures AllSound(g, Apply(s, On(n, op))) && Rank(g, Apply(s, On(n, op))) <= Rank(g, s)
  {
    var s' := Apply(s, On(n, op));
    var m' := Effect(s.pass, s.members[n], op);
    OpNeverRaises(g, s.pass, s.members[n], op);
    SoundIgnoresBudget(g, s.pass, s'.pass, m');
    forall k | k in s.members && k != n
      ensures Sound(g, s'.pass, s.members[k])
    {
      SoundIgnoresBudget(g, s.pass, s'.pass, s.members[k]);
    }
    RankFromNodes(g, s, s');
  }

  /** What a pass remembers does not count as work. */
  lemma LocalStepRanks(g: Goal, s: State, a: Action)
    requires AllGood(s) && AllSound(g, s) && Enabled(s, a) && Cooperative(g, s, a) && !a.On?
    ensures AllSound(g, Apply(s, a)) && Rank(g, Apply(s, a)) <= Rank(g, s)
  {
    var s' := Apply(s, a);
    forall n | n in s'.members
      ensures Sound(g, s'.pass, s'.members[n])
      ensures if n in s.members then NodeRank(g, s'.members[n]) <= NodeRank(g, s.members[n])
              else NodeRank(g, s'.members[n]) == 0
    {
      if n in s.members { assert Good(s.pass, s.members[n]) && Sound(g, s.pass, s.members[n]); }
    }
    RankFromNodes(g, s, s');
  }

  /** No cooperative step, of the controller or of the environment, raises the rank. */
  lemma StepNeverRaises(g: Goal, s: State, a: Action)
    requires Inv(s) && AllSound(g, s) && Enabled(s, a) && Cooperative(g, s, a)
    ensures AllSound(g, Apply(s, a)) && Rank(g, Apply(s, a)) <= Rank(g, s)
  {
    if a.On? {
      OpRanks(g, s, a.name, a.op);
    } else {
      LocalStepRanks(g, s, a);
    }
  }

  ghost predicate CooperativeRun(g: Goal, s: State, acts: seq<Action>)
    requires Legal(s, acts)
  {
    forall k | 0 <= k < |acts| :: Cooperative(g, S.At(s, acts, k), acts[k])
  }

  /** The steps of a run that do some of the work. */
  ghost function Helpful(g: Goal, s: State, acts: seq<Action>): nat
    requires Legal(s, acts)
    decreases |acts|
  {
    if acts == [] then 0
    else
      Helpful(g, s, acts[..|acts| - 1])
      + Bit(Rank(g, Replay(s, acts)) < Rank(g, Replay(s, acts[..|acts| - 1])))
  }

  lemma CooperativePrefix(g: Goal, s: State, acts: seq<Action>)
    requires Legal(s, acts) && CooperativeRun(g, s, acts) && acts != []
    ensures Legal(s, acts[..|acts| - 1]) && CooperativeRun(g, s, acts[..|acts| - 1])
    ensures Cooperative(g, Replay(s, acts[..|acts| - 1]), acts[|acts| - 1])
  {
    var front := acts[..|acts| - 1];
    forall k | 0 <= k < |front|
      ensures Cooperative(g, S.At(s, front, k), front[k])
    {
      assert front[..k] == acts[..k];
      assert Cooperative(g, S.At(s, acts, k), acts[k]);
    }
    assert Cooperative(g, S.At(s, acts, |front|), acts[|front|]);
  }

  /** However a cooperative run goes on, it holds no more helpful steps than the rank it started with. */
  lemma {:induction false} HelpIsBounded(g: Goal, s: State, acts: seq<Action>)
    requires Inv(s) && AllSound(g, s) && Legal(s, acts) && CooperativeRun(g, s, acts)
    ensures AllSound(g, Replay(s, acts))
    ensures Helpful(g, s, acts) + Rank(g, Replay(s, acts)) <= Rank(g, s)
    decreases |acts|
  {
    if acts != [] {
      var front := acts[..|acts| - 1];
      CooperativePrefix(g, s, acts);
      HelpIsBounded(g, s, front);
      RunKeepsInv(s, front);
      StepNeverRaises(g, Replay(s, front), acts[|acts| - 1]);
    }
  }

  // ---- A settled pass leaves work only to others ------------------------------------------------

  predicate Ours(g: Goal, m: Member) {
    OwnedBy(m, g.pool) && m.bn.value.desired == g.image
  }

  /** Only the controller can take this node further. */
  predicate WaitsForController(g: Goal, m: Member)
    requires m.bn.Some?
  {
    if OnGoal(g, m) then
      ClassifyNode(m.bn.value) == Some(UpToDate) && Marked(m.bn.value) && m.node.Some? && m.node.value.ready == True
    else
      && !m.host.rebootIssued && StagedGoal(g, m) && !m.bn.value.approved
      && ClassifyNode(m.bn.value) == Some(Staged) && m.drain != Some(Running)
  }

  /** What the environment does next for a node that does not wait for the controller. */
  function Help(g: Goal, m: Member): Op
    requires g.image.Digested? && m.bn.Some? && m.node.Some?
  {
    var report := DaemonRuns(D.Probe(true, m.host.staged, false, false, 0), true, true);
    if OnGoal(g, m) then
      if ClassifyNode(m.bn.value) == Some(UpToDate) then
        NodeChanges(True, m.node.value.taints, m.node.value.selectedBy, m.node.value.deleting)
      else if m.host.rebootIssued then Boots(m.host.booted) else report
    else if m.host.rebootIssued then Boots(if m.host.staged.Some? then m.host.staged else m.host.booted)
    else if !StagedGoal(g, m) then Stages(ImageInfo(g.image, g.image.digest))
    else if m.bn.value.approved || ClassifyNode(m.bn.value) != Some(Staged) then report
    else DrainEnds(true)
  }

  lemma HelpLowers(g: Goal, pass: Pass, m: Member)
    requires Sound(g, pass, m) && (m.local.own.Some? ==> m.bn.Some?)
    requires Ours(g, m) && m.node.Some? && NodeRank(g, m) > 0 && !WaitsForController(g, m)
    ensures EnvGuard(pass, m, Help(g, m)) && CooperativeOp(g, m, Help(g, m))
    ensures NodeRank(g, Effect(pass, m, Help(g, m))) < NodeRank(g, m)
  {
  }

  /** The copies and reads of the pass are what is stored, no drain has ended unseen, Karpenter holds
      nobody back, and every selected node has been adopted. */
  predicate Fresh(g: Goal, s: State) {
    forall n | n in s.members ::
      var m := s.members[n];
      && (m.bn.None? ==> !Selects(g.pool, m))
      && (m.local.own.Some? ==>
            && m.bn == m.local.own && m.node.Some? && (m.drain.Some? ==> m.drain.value.Running?)
            && (m.local.node.Some? ==> m.local.node == m.node && !Deferred(m.local)))
  }

  predicate RollingTo(g: Goal, s: State) {
    s.pass.Busy? && s.pass.stage == Rolling && s.pass.pool == g.pool && s.pass.image == g.image
  }

  /** A node with work left is one of ours. */
  lemma WorkIsOurs(g: Goal, s: State, n: Name)
    requires AllGood(s) && Fresh(g, s) && RollingTo(g, s) && n in s.members && NodeRank(g, s.members[n]) > 0
    ensures Ours(g, s.members[n]) && s.members[n].local.own.Some? && s.members[n].node.Some?
  {
    assert Good(s.pass, s.members[n]);
  }

  /** A node of ours with work left that somebody else than the controller can take further. */
  predicate Moves(g: Goal, m: Member) {
    Ours(g, m) && m.node.Some? && NodeRank(g, m) > 0 && !WaitsForController(g, m)
  }

  /** A step of somebody else that does some of the work. */
  ghost predicate HelpedBy(g: Goal, s: State, a: Action) {
    Environmental(a) && Enabled(s, a) && Cooperative(g, s, a) && Rank(g, Apply(s, a)) < Rank(g, s)
  }

  ghost predicate CanBeHelped(g: Goal, s: State) {
    exists a :: HelpedBy(g, s, a)
  }

  lemma HelpHelps(g: Goal, s: State, n: Name)
    requires AllGood(s) && AllSound(g, s) && n in s.members && Moves(g, s.members[n])
    ensures CanBeHelped(g, s)
  {
    var m := s.members[n];
    assert Good(s.pass, m);
    var a := On(n, Help(g, m));
    HelpLowers(g, s.pass, m);
    var s' := Apply(s, a);
    assert s'.members[n] == Effect(s.pass, m, a.op);
    assert forall k | k in s.members && k != n :: s'.members[k] == s.members[k];
    RankFromNodes(g, s, s');
    assert HelpedBy(g, s, a);
  }

  lemma HasWork(g: Goal, s: State) returns (n: Name)
    requires Rank(g, s) > 0
    ensures n in s.members && NodeRank(g, s.members[n]) > 0
  {
    var w :| w in Work(g, s);
    n := w.0;
  }

  /** A slot is work, and after a settled pass its holder never waits for the controller. */
  lemma SlotHolderMoves(g: Goal, s: State, limit: int, n: Name)
    requires AllGood(s) && AllSound(g, s) && Fresh(g, s) && RollingTo(g, s) && Settled(s, limit) && n in Occupied(s)
    ensures Moves(g, s.members[n])
  {
    assert Good(s.pass, s.members[n]) && SettledNode(s.members[n], |Occupied(s)| >= limit);
  }

  /** The rollout is never stuck: whenever a completed pass leaves it unfinished, some step of the
      environment (a daemon reporting or rebooting, staging, a boot, a drain ending, a Node becoming
      Ready) is possible, cooperative, and lowers the rank. */
  lemma SettledPassCanBeHelped(g: Goal, s: State, limit: int) returns (n: Name)
    requires Inv(s) && AllSound(g, s) && Fresh(g, s) && RollingTo(g, s)
    requires Settled(s, limit) && limit >= 1 && Rank(g, s) > 0
    ensures n in s.members && Moves(g, s.members[n]) && CanBeHelped(g, s)
  {
    n := HasWork(g, s);
    WorkIsOurs(g, s, n);
    if WaitsForController(g, s.members[n]) {
      assert Good(s.pass, s.members[n]) && SettledNode(s.members[n], |Occupied(s)| >= limit);
      n :| n in Occupied(s);
      SlotHolderMoves(g, s, limit, n);
    }
    HelpHelps(g, s, n);
  }

  lemma BadSlotMoves(g: Goal, s: State, timeout: int, now: int, n: Name)
    requires AllGood(s) && AllSound(g, s) && Fresh(g, s) && RollingTo(g, s) && NothingToFree(s)
    requires n in Bad(s, timeout, now)
    ensures Moves(g, s.members[n])
  {
    assert Good(s.pass, s.members[n]) && R.BadSlot(s.members[n].local.own.value, g.image.digest, timeout, now);
  }

  /** The same after a pass that halted: a slot that has gone bad can be helped. */
  lemma HaltedPassCanBeHelped(g: Goal, s: State, timeout: int, now: int) returns (n: Name)
    requires Inv(s) && AllSound(g, s) && Fresh(g, s) && RollingTo(g, s) && NothingToFree(s)
    requires Bad(s, timeout, now) != {}
    ensures n in s.members && Moves(g, s.members[n]) && CanBeHelped(g, s)
  {
    n :| n in Bad(s, timeout, now);
    BadSlotMoves(g, s, timeout, now, n);
    HelpHelps(g, s, n);
  }

  // ---- The end ----------------------------------------------------------------------------------

  /** Nothing is left to do exactly if every node the pool selects, unless another pool has it, runs
      and reports the image and is marked no more. */
  lemma FinishedMeans(g: Goal, s: State)
    ensures Rank(g, s) == 0 <==>
            forall n | n in s.members ::
              var m := s.members[n];
              && (m.bn.None? ==> !Selects(g.pool, m))
              && (OwnedBy(m, g.pool) ==>
                    && m.bn.value.desired == g.image && OnGoal(g, m)
                    && ClassifyNode(m.bn.value) == Some(UpToDate) && !Marked(m.bn.value))
  {
    if Rank(g, s) == 0 {
      forall n | n in s.members
        ensures NodeRank(g, s.members[n]) == 0
      {
        assert Work(g, s) == {} && (n, 0) !in Work(g, s);
      }
    } else {
      var n := HasWork(g, s);
    }
  }

  /** At the end no slot is held, and Nodes and claims are as they were found. */
  lemma FinishedIsRestored(g: Goal, s: State)
    requires Inv(s) && Rank(g, s) == 0
    ensures Slots(s, g.pool) == {}
    ensures forall n | n in s.members && OwnedBy(s.members[n], g.pool) :: S.Restored(s.members[n])
  {
    FinishedMeans(g, s);
    forall n | n in s.members && OwnedBy(s.members[n], g.pool)
      ensures S.Restored(s.members[n])
    {
      assert Good(s.pass, s.members[n]);
    }
  }

  // ---- Why one pool -----------------------------------------------------------------------------

  /** The pass of another pool cannot use the result of a drain, but it consumes it: the node is left
      with its slot, not approved and not draining, and the rank is two higher. */
  lemma ForeignPassDiscardsDrain(g: Goal, s: State, n: Name)
    requires Inv(s) && n in s.members && Ours(g, s.members[n]) && !OnGoal(g, s.members[n])
    requires s.members[n].drain == Some(Finished(true)) && !s.members[n].bn.value.approved
    requires s.pass.Busy? && s.pass.stage == Rolling && s.pass.pool != g.pool
    ensures !Enabled(s, On(n, Collect(true))) && Enabled(s, On(n, Collect(false)))
    ensures var m' := Apply(s, On(n, Collect(false))).members[n];
            && m'.drain.None? && m'.bn == s.members[n].bn
            && NodeRank(g, m') == NodeRank(g, s.members[n]) + 2
  {
    assert Good(s.pass, s.members[n]);
  }
}
