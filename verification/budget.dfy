/** The reboot budget, end to end: while the targets stay fixed, every reboot a daemon issues is of
    a node that holds a reboot slot. */
module Budget {
  import opened Types
  import opened Slot
  import opened Classify
  import opened Cluster
  import opened Invariants
  import opened Safety
  import opened Runs
  import D = Daemon

  /** The image every pool rolls out during the run. */
  type Targets = map<Pool, Ref>

  predicate HasTarget(T: Targets, bn: BootcNode) {
    bn.owner.Some? && bn.owner.value in T && T[bn.owner.value].Digested?
  }

  predicate Matches(T: Targets, bn: BootcNode, info: Option<ImageInfo>) {
    HasTarget(T, bn) && InfoMatchesDigest(info, T[bn.owner.value].digest)
  }

  /** The host runs the target of the pool its BootcNode belongs to. */
  predicate OnTarget(T: Targets, m: Member) {
    m.bn.Some? && Matches(T, m.bn.value, m.host.booted)
  }

  /** A drain whose result may still approve the node. */
  predicate MayApprove(m: Member) {
    m.drain.Some? && (m.drain.value.Running? || m.drain.value.ok)
  }

  /** Approved for reboot, or on the way to it. */
  predicate Cleared(m: Member) {
    m.bn.Some? && (m.bn.value.approved || MayApprove(m))
  }

  /** Cleared only with a slot, or where a reboot cannot come of it: on the target, and if approved,
      for the target. */
  predicate Licensed(T: Targets, m: Member) {
    m.bn.Some? ==>
      && (MayApprove(m) ==> HasSlot(m.bn.value) || OnTarget(T, m))
      && (m.bn.value.approved ==>
            HasSlot(m.bn.value) || (OnTarget(T, m) && m.bn.value.desired == T[m.bn.value.owner.value]))
  }

  /** The stored status does not claim the target for a host that does not run it. */
  predicate Truthful(T: Targets, m: Member) {
    m.bn.Some? && Matches(T, m.bn.value, m.bn.value.status.booted) ==> OnTarget(T, m)
  }

  predicate Safe(T: Targets, pass: Pass, m: Member) {
    && Licensed(T, m) && Truthful(T, m)
    && (m.bn.Some? && m.local.own.Some? && Matches(T, m.bn.value, m.local.own.value.status.booted) ==> OnTarget(T, m))
    && (pass.Busy? ==> pass.pool in T && T[pass.pool] == pass.image && pass.image.Digested?)
  }

  /** The hypotheses on a run segment: passes roll out the fixed targets, and a host that runs its
      target is not booted into anything else, nor replaced by one that is. */
  predicate Steady(T: Targets, s: State, a: Action) {
    && (a.Begin? ==> a.pool in T && T[a.pool] == a.image)
    && (a.On? && a.op.Boots? && a.name in s.members && OnTarget(T, s.members[a.name]) ==>
          Matches(T, s.members[a.name].bn.value, a.op.booted))
    && (a.Joins? && a.name in s.members && OnTarget(T, s.members[a.name]) ==>
          Matches(T, s.members[a.name].bn.value, a.host.booted))
  }

  ghost predicate SteadyRun(T: Targets, s: State, acts: seq<Action>)
    requires Legal(s, acts)
  {
    forall k | 0 <= k < |acts| :: Steady(T, At(s, acts, k), acts[k])
  }

  /** Where a segment starts: between passes, with drains and approvals only where they are licensed,
      and with no status that claims the target for a host that does not run it. */
  predicate Start(T: Targets, s: State) {
    s.pass.Idle? && forall n | n in s.members :: Licensed(T, s.members[n]) && Truthful(T, s.members[n])
  }

  predicate AllSafe(T: Targets, s: State) {
    && (forall n | n in s.members :: Safe(T, s.pass, s.members[n]))
    && (s.pass.Busy? ==> s.pass.pool in T && T[s.pass.pool] == s.pass.image && s.pass.image.Digested?)
  }

  lemma OpKeepsSafe(T: Targets, pass: Pass, m: Member, op: Op)
    requires Good(pass, m) && Safe(T, pass, m) && Guard(pass, m, op)
    requires op.Boots? && OnTarget(T, m) ==> Matches(T, m.bn.value, op.booted)
    ensures Safe(T, pass, Effect(pass, m, op))
  {
    if CodeGuard(pass, m.local, m.drain, op) {
      CodeKeepsSafe(T, pass, m, op);
    } else {
      EnvKeepsSafe(T, pass, m, op);
    }
  }

  lemma MarkOpKeepsSafe(T: Targets, pass: Pass, m: Member, op: Op)
    requires Good(pass, m) && Safe(T, pass, m) && op in {Unmark, ClearTaint, MarkSlot, StartDrain}
    requires CodeGuard(pass, m.local, m.drain, op) && ApiGuard(pass, m, op)
    ensures Safe(T, pass, Effect(pass, m, op))
  {
  }

  lemma SpecOpKeepsSafe(T: Targets, pass: Pass, m: Member, op: Op)
    requires Good(pass, m) && Safe(T, pass, m) && (op in {Create, Sync, Delete, CancelDrain} || op.Collect?)
    requires CodeGuard(pass, m.local, m.drain, op) && ApiGuard(pass, m, op)
    ensures Safe(T, pass, Effect(pass, m, op))
  {
  }

  lemma OtherOpKeepsSafe(T: Targets, pass: Pass, m: Member, op: Op)
    requires Good(pass, m) && Safe(T, pass, m) && !op.Collect?
    requires op !in {Unmark, ClearTaint, MarkSlot, StartDrain, Create, Sync, Delete, CancelDrain}
    requires CodeGuard(pass, m.local, m.drain, op) && ApiGuard(pass, m, op)
    ensures Safe(T, pass, Effect(pass, m, op))
  {
    var m' := Effect(pass, m, op);
    assert m'.bn == m.bn && m'.host == m.host && m'.drain == m.drain && m'.local.own == m.local.own;
  }

  lemma CodeKeepsSafe(T: Targets, pass: Pass, m: Member, op: Op)
    requires Good(pass, m) && Safe(T, pass, m)
    requires CodeGuard(pass, m.local, m.drain, op) && ApiGuard(pass, m, op)
    ensures Safe(T, pass, Effect(pass, m, op))
  {
    if op in {Unmark, ClearTaint, MarkSlot, StartDrain} {
      MarkOpKeepsSafe(T, pass, m, op);
    } else if op in {Create, Sync, Delete, CancelDrain} || op.Collect? {
      SpecOpKeepsSafe(T, pass, m, op);
    } else {
      OtherOpKeepsSafe(T, pass, m, op);
    }
  }

  lemma EnvKeepsSafe(T: Targets, pass: Pass, m: Member, op: Op)
    requires Good(pass, m) && Safe(T, pass, m) && EnvGuard(pass, m, op)
    requires op.Boots? && OnTarget(T, m) ==> Matches(T, m.bn.value, op.booted)
    ensures Safe(T, pass, Effect(pass, m, op))
  {
  }

  lemma SafeIgnoresBudget(T: Targets, pass: Pass, pass': Pass, m: Member)
    requires Safe(T, pass, m)
    requires pass'.Busy? ==> pass.Busy? && pass.pool == pass'.pool && pass.image == pass'.image
    ensures Safe(T, pass', m)
  {
  }

  lemma OpKeepsAllSafe(T: Targets, s: State, n: Name, op: Op)
    requires AllGood(s) && AllSafe(T, s) && Enabled(s, On(n, op)) && Steady(T, s, On(n, op))
    ensures AllSafe(T, Apply(s, On(n, op)))
  {
    var s' := Apply(s, On(n, op));
    var m' := Effect(s.pass, s.members[n], op);
    assert Safe(T, s'.pass, m') by {
      OpKeepsSafe(T, s.pass, s.members[n], op);
      SafeIgnoresBudget(T, s.pass, s'.pass, m');
    }
    forall k | k in s.members && k != n
      ensures Safe(T, s'.pass, s.members[k])
    {
      SafeIgnoresBudget(T, s.pass, s'.pass, s.members[k]);
    }
  }

  lemma ListedSafe(T: Targets, m: Member, p: Pool, deleting: bool, pass: Pass)
    requires Good(Idle, m) && Safe(T, Idle, m)
    requires pass.Busy? && pass.pool in T && T[pass.pool] == pass.image && pass.image.Digested?
    ensures Safe(T, pass, m.(local := Listed(p, deleting, m)))
  {
  }

  lemma ForgottenSafe(T: Targets, pass: Pass, m: Member, drain: Option<Drain>)
    requires Safe(T, pass, m) && (drain == m.drain || drain.None?)
    ensures Safe(T, Idle, m.(local := NO_LOCAL, drain := drain))
  {
  }

  lemma StepKeepsSafe(T: Targets, s: State, a: Action)
    requires AllGood(s) && AllSafe(T, s) && Enabled(s, a) && Steady(T, s, a)
    ensures AllSafe(T, Apply(s, a))
  {
    var s' := Apply(s, a);
    match a
    case On(n, op) => OpKeepsAllSafe(T, s, n, op);
    case Begin(p, image) =>
      forall n | n in s.members
        ensures Safe(T, s'.pass, s'.members[n])
      {
        ListedSafe(T, s.members[n], p, s.pools[p].Terminating?, s'.pass);
      }
    case End =>
      forall n | n in s.members
        ensures Safe(T, s'.pass, s'.members[n])
      {
        ForgottenSafe(T, s.pass, s.members[n], s.members[n].drain);
      }
    case Restart =>
      forall n | n in s.members
        ensures Safe(T, s'.pass, s'.members[n])
      {
        ForgottenSafe(T, s.pass, s.members[n], None);
      }
    case Joins(n, node, claim, host) => JoinKeepsSafe(T, s, a);
    case _ =>
      forall n | n in s.members
        ensures Safe(T, s'.pass, s.members[n])
      {
        SafeIgnoresBudget(T, s.pass, s'.pass, s.members[n]);
      }
  }

  lemma JoinKeepsSafe(T: Targets, s: State, a: Action)
    requires AllSafe(T, s) && Enabled(s, a) && a.Joins? && Steady(T, s, a)
    requires s.pass.Busy? ==> s.pass.pool in T && T[s.pass.pool] == s.pass.image && s.pass.image.Digested?
    ensures AllSafe(T, Apply(s, a))
  {
    var s' := Apply(s, a);
    assert forall k | k in s'.members && k != a.name :: s'.members[k] == s.members[k];
    if a.name in s.members { ReturnKeepsSafe(T, s.pass, s.members[a.name], s'.members[a.name]); }
  }

  lemma ReturnKeepsSafe(T: Targets, pass: Pass, m: Member, m': Member)
    requires Safe(T, pass, m) && m' == m.(node := m'.node, claim := m'.claim, host := m'.host, found := m'.found)
    requires OnTarget(T, m) ==> Matches(T, m.bn.value, m'.host.booted)
    ensures Safe(T, pass, m')
  {
  }

  lemma {:induction false} RunKeepsSafe(T: Targets, s: State, acts: seq<Action>)
    requires Inv(s) && Start(T, s) && Legal(s, acts) && SteadyRun(T, s, acts)
    ensures AllSafe(T, Replay(s, acts))
    decreases |acts|
  {
    if acts == [] {
      forall n | n in s.members
        ensures Safe(T, s.pass, s.members[n])
      {
        assert Good(s.pass, s.members[n]);
      }
    } else {
      SteadyPrefix(T, s, acts);
      RunKeepsSafe(T, s, acts[..|acts| - 1]);
      LastStepKeepsSafe(T, s, acts);
    }
  }

  lemma SteadyPrefix(T: Targets, s: State, acts: seq<Action>)
    requires Legal(s, acts) && acts != [] && SteadyRun(T, s, acts)
    ensures Legal(s, acts[..|acts| - 1]) && SteadyRun(T, s, acts[..|acts| - 1])
  {
    var front := acts[..|acts| - 1];
    forall k | 0 <= k < |front|
      ensures Steady(T, At(s, front, k), front[k])
    {
      assert front[..k] == acts[..k];
      assert Steady(T, At(s, acts, k), acts[k]);
    }
  }

  lemma LastStepKeepsSafe(T: Targets, s: State, acts: seq<Action>)
    requires Inv(s) && Legal(s, acts) && acts != [] && SteadyRun(T, s, acts)
    requires Legal(s, acts[..|acts| - 1]) && AllSafe(T, Replay(s, acts[..|acts| - 1]))
    ensures AllSafe(T, Replay(s, acts))
  {
    var k := |acts| - 1;
    LastStep(s, acts);
    assert Steady(T, At(s, acts, k), acts[k]);
    StepKeepsSafe(T, Replay(s, acts[..k]), acts[k]);
  }

  /** At every point of the segment, a node that is approved or being drained holds a slot or
      already runs its target. */
  lemma ClearedIsSlottedOrDone(T: Targets, s: State, acts: seq<Action>, k: nat, n: Name)
    requires Inv(s) && Start(T, s) && Legal(s, acts) && SteadyRun(T, s, acts)
    requires k <= |acts| && n in At(s, acts, k).members && Cleared(At(s, acts, k).members[n])
    ensures HasSlot(At(s, acts, k).members[n].bn.value) || OnTarget(T, At(s, acts, k).members[n])
  {
    AtSafe(T, s, acts, k, n);
  }

  /** The daemon of `n` issues a reboot in this step. */
  predicate IssuesReboot(s: State, a: Action, n: Name) {
    && Enabled(s, a) && a.On? && a.name == n && a.op.DaemonRuns?
    && !s.members[n].host.rebootIssued && Apply(s, a).members[n].host.rebootIssued
  }

  /** Every reboot issued in the segment is of a node that holds a slot at that moment. */
  lemma EveryRebootIsSlotted(T: Targets, s: State, acts: seq<Action>, k: nat, n: Name)
    requires Inv(s) && Start(T, s) && Legal(s, acts) && SteadyRun(T, s, acts)
    requires k < |acts| && IssuesReboot(At(s, acts, k), acts[k], n)
    ensures n in At(s, acts, k).members
    ensures At(s, acts, k).members[n].bn.Some? && HasSlot(At(s, acts, k).members[n].bn.value)
  {
    AtSafe(T, s, acts, k, n);
    RebootIsSlotted(T, At(s, acts, k), acts[k], n);
  }

  lemma RebootIsSlotted(T: Targets, s: State, a: Action, n: Name)
    requires IssuesReboot(s, a, n) && Safe(T, s.pass, s.members[n])
    ensures s.members[n].bn.Some? && HasSlot(s.members[n].bn.value)
  {
  }

  lemma AtSafe(T: Targets, s: State, acts: seq<Action>, k: nat, n: Name)
    requires Inv(s) && Start(T, s) && Legal(s, acts) && SteadyRun(T, s, acts)
    requires k <= |acts| && n in At(s, acts, k).members
    ensures Safe(T, At(s, acts, k).pass, At(s, acts, k).members[n])
  {
    LegalPrefix(s, acts, k);
    var front := acts[..k];
    forall i | 0 <= i < |front|
      ensures Steady(T, At(s, front, i), front[i])
    {
      assert front[..i] == acts[..i];
      assert Steady(T, At(s, acts, i), acts[i]);
    }
    RunKeepsSafe(T, s, front);
  }

  /** Nodes of `p` that are approved and not yet on target. */
  function InFlight(T: Targets, s: State, p: Pool): set<Name> {
    set n | n in s.members && s.members[n].bn.Some? && s.members[n].bn.value.owner == Some(p)
            && s.members[n].bn.value.approved && !OnTarget(T, s.members[n])
  }

  /** The budget: at the end of any segment, wherever its passes stopped, the nodes approved and not
      yet on target are no more than the larger of the slots held at the start and the largest
      maxUnavailable resolved on the way. */
  lemma RebootBudget(T: Targets, s: State, acts: seq<Action>, p: Pool, bound: int)
    requires Inv(s) && Start(T, s) && Legal(s, acts) && SteadyRun(T, s, acts) && LimitsWithin(s, acts, p, bound)
    ensures InFlight(T, Replay(s, acts), p) <= Slots(Replay(s, acts), p)
    ensures |InFlight(T, Replay(s, acts), p)| <= |Slots(s, p)| || |InFlight(T, Replay(s, acts), p)| <= bound
  {
    var t := Replay(s, acts);
    RunKeepsSafe(T, s, acts);
    forall n | n in InFlight(T, t, p)
      ensures n in Slots(t, p)
    {
      assert Safe(T, t.pass, t.members[n]);
    }
    SlotBound(s, acts, p, bound);
    SmallerSet(InFlight(T, t, p), Slots(t, p));
  }

  // ---- The hypothesis on drains and approvals is exact --------------------------------------------

  function SteadyStep(T: Targets): Allowed {
    (s: State, a: Action) => Steady(T, s, a)
  }

  /** Some steady run from `s` reboots a node that holds no slot. */
  ghost predicate BreaksBudget(T: Targets, s: State) {
    exists acts, k: nat, n :: RebootsUnslotted(T, s, acts, k, n)
  }

  ghost predicate RebootsUnslotted(T: Targets, s: State, acts: seq<Action>, k: nat, n: Name) {
    && Legal(s, acts) && SteadyRun(T, s, acts) && k < |acts| && IssuesReboot(At(s, acts, k), acts[k], n)
    && At(s, acts, k).members[n].bn.Some? && !HasSlot(At(s, acts, k).members[n].bn.value)
  }

  lemma LastRebootBreaks(T: Targets, s: State, t: State, a: Action, n: Name)
    requires Leads(SteadyStep(T), s, t) && IssuesReboot(t, a, n) && Steady(T, t, a)
    requires t.members[n].bn.Some? && !HasSlot(t.members[n].bn.value)
    ensures BreaksBudget(T, s)
  {
    var acts :| Run(SteadyStep(T), s, acts, t);
    RunExtends(SteadyStep(T), s, acts, t, a);
    var all := acts + [a];
    forall k | 0 <= k < |all|
      ensures Steady(T, At(s, all, k), all[k])
    {
      assert AllowedAt(SteadyStep(T), s, all, k);
    }
    assert all[..|acts|] == acts;
    assert RebootsUnslotted(T, s, all, |acts|, n);
  }

  predicate Astray(T: Targets, m: Member, p: Pool) {
    && m.bn.Some? && m.bn.value.owner == Some(p) && p in T && T[p].Digested? && m.bn.value.desired == T[p]
    && !HasSlot(m.bn.value) && !OnTarget(T, m)
  }

  /** Booted into something else, with the target staged. */
  predicate AboutToReboot(T: Targets, m: Member, p: Pool) {
    && Astray(T, m, p) && m.bn.value.approved && m.host.booted.Some? && !m.host.rebootIssued
    && InfoMatchesDigest(m.host.staged, T[p].digest)
  }

  lemma AboutToRebootDoes(T: Targets, s: State, n: Name, p: Pool)
    requires n in s.members && AboutToReboot(T, s.members[n], p) && s.members[n].local.own.None?
    ensures IssuesReboot(s, On(n, DaemonRuns(D.Probe(true, s.members[n].host.staged, false, false, 0), true, true)), n)
  {
    var m := s.members[n];
    assert D.Reconcile(m.bn.value, m.host.booted, D.Probe(true, m.host.staged, false, false, 0)).reboot;
  }

  lemma GetsReady(T: Targets, s: State, n: Name, p: Pool) returns (t: State)
    requires n in s.members && s.members[n].local.own.None?
    requires Astray(T, s.members[n], p) && s.members[n].bn.value.approved
    ensures Leads(SteadyStep(T), s, t) && n in t.members && t.members[n].local.own.None?
    ensures AboutToReboot(T, t.members[n], p)
  {
    var d := T[p].digest;
    var other, entry := ImageInfo(Unparseable, d + "'"), ImageInfo(T[p], d);
    assert d + "'" != d;
    var allowed, m := SteadyStep(T), s.members[n];
    LeadsNowhere(allowed, s);
    StepOn(allowed, s, s, n, m, Boots(Some(other)));
    var s1, m1 := Apply(s, On(n, Boots(Some(other)))), m.(host := Host(Some(other), None, false));
    StepOn(allowed, s, s1, n, m1, Stages(entry));
    t := Apply(s1, On(n, Stages(entry)));
    assert t.members[n] == m.(host := Host(Some(other), Some(entry), false));
  }

  /** An approved node off its target that holds no slot: boot it into anything else, stage the target,
      let the daemon look. */
  lemma ApprovedReboots(T: Targets, s0: State, s: State, n: Name, p: Pool)
    requires Leads(SteadyStep(T), s0, s) && n in s.members && s.members[n].local.own.None?
    requires Astray(T, s.members[n], p) && s.members[n].bn.value.approved
    ensures BreaksBudget(T, s0)
  {
    var t := GetsReady(T, s, n, p);
    LeadsTrans(SteadyStep(T), s0, s, t);
    AboutToRebootDoes(T, t, n, p);
    var a := On(n, DaemonRuns(D.Probe(true, t.members[n].host.staged, false, false, 0), true, true));
    LastRebootBreaks(T, s0, t, a, n);
  }

  /** A drain that has succeeded approves its node in the next pass. */
  lemma CollectingApproves(T: Targets, pass: Pass, m: Member, p: Pool)
    requires Astray(T, m, p) && m.drain == Some(Finished(true)) && pass.Busy? && pass.stage == Rolling && pass.pool == p
    ensures var m1 := m.(local := Listed(p, false, m));
            && Guard(pass, m1, Collect(true))
            && Effect(pass, m1, Collect(true)).bn == Some(m.bn.value.(approved := true))
            && Effect(pass, m1, Collect(true)).host == m.host
  {
  }

  lemma FinishedDrainApproves(T: Targets, s: State, n: Name, p: Pool) returns (u: State)
    requires LiveAndIdle(s, p) && n in s.members && Astray(T, s.members[n], p) && InSync(s, p, T[p])
    requires s.members[n].drain == Some(Finished(true))
    ensures Leads(SteadyStep(T), s, u) && u.pass.Idle? && n in u.members && u.members[n].local.own.None?
    ensures Astray(T, u.members[n], p) && u.members[n].bn.value.approved
  {
    var allowed := SteadyStep(T);
    var m := s.members[n];
    var t := Rolls(allowed, s, p, T[p], n);
    var m1 := m.(local := Listed(p, false, m));
    CollectingApproves(T, t.pass, m, p);
    StepOn(allowed, s, t, n, m1, Collect(true));
    var m2 := Effect(t.pass, m1, Collect(true));
    u := Closes(allowed, s, Apply(t, On(n, Collect(true))), n, m2);
  }

  /** A drain that is still running may succeed. */
  lemma DrainFinishes(T: Targets, s: State, n: Name, p: Pool) returns (t: State)
    requires LiveAndIdle(s, p) && n in s.members && Astray(T, s.members[n], p) && InSync(s, p, T[p])
    requires s.members[n].local.own.None? && Cleared(s.members[n]) && !s.members[n].bn.value.approved
    ensures Leads(SteadyStep(T), s, t) && LiveAndIdle(t, p) && n in t.members && Astray(T, t.members[n], p)
    ensures InSync(t, p, T[p]) && t.members[n].drain == Some(Finished(true))
  {
    var allowed, m := SteadyStep(T), s.members[n];
    LeadsNowhere(allowed, s);
    t := s;
    if m.drain == Some(Running) {
      StepOn(allowed, s, s, n, m, DrainEnds(true));
      t := Apply(s, On(n, DrainEnds(true)));
      assert t.members[n] == m.(drain := Some(Finished(true)));
      forall k | k in t.members && OwnedBy(t.members[k], p)
        ensures t.members[k].bn.value.desired == T[p]
        ensures t.members[k].node.Some? && p in t.members[k].node.value.selectedBy
      {
        assert t.members[k].bn == s.members[k].bn && t.members[k].node == s.members[k].node;
      }
    }
  }

  lemma UnlicensedBreaks(T: Targets, s: State, n: Name, p: Pool)
    requires Inv(s) && LiveAndIdle(s, p) && n in s.members && Astray(T, s.members[n], p) && InSync(s, p, T[p])
    requires Cleared(s.members[n])
    ensures BreaksBudget(T, s)
  {
    var allowed := SteadyStep(T);
    assert Good(s.pass, s.members[n]);
    LeadsNowhere(allowed, s);
    if s.members[n].bn.value.approved {
      ApprovedReboots(T, s, s, n, p);
    } else {
      var t := DrainFinishes(T, s, n, p);
      var u := FinishedDrainApproves(T, t, n, p);
      LeadsTrans(allowed, s, t, u);
      ApprovedReboots(T, s, u, n, p);
    }
  }

  /** Every BootcNode belongs to a live pool and is in sync with its target. */
  predicate AllInSync(T: Targets, s: State) {
    && s.pass.Idle?
    && forall n | n in s.members && s.members[n].bn.Some? ::
         && HasTarget(T, s.members[n].bn.value)
         && var p := s.members[n].bn.value.owner.value; LiveAndIdle(s, p) && InSync(s, p, T[p])
  }

  /** The condition is exact. For pools in sync with their targets and statuses that are true: every
      steady run reboots slot holders only, if and only if no node off its target is approved, or
      drained with a result still possible, without a slot. */
  lemma BudgetHoldsIff(T: Targets, s: State)
    requires Inv(s) && AllInSync(T, s) && forall n | n in s.members :: Truthful(T, s.members[n])
    ensures !BreaksBudget(T, s) <==>
            forall n | n in s.members && Cleared(s.members[n]) ::
              HasSlot(s.members[n].bn.value) || OnTarget(T, s.members[n])
  {
    if n :| n in s.members && Cleared(s.members[n]) && !HasSlot(s.members[n].bn.value) && !OnTarget(T, s.members[n]) {
      UnlicensedBreaks(T, s, n, s.members[n].bn.value.owner.value);
    } else {
      assert Start(T, s);
      forall acts, k: nat, n | RebootsUnslotted(T, s, acts, k, n)
        ensures false
      {
        EveryRebootIsSlotted(T, s, acts, k, n);
      }
    }
  }

  /** Nothing the controller does on the way from one target to the next ends a drain: freeing the
      slot and retargeting the node leave it alone. */
  lemma DrainOutlivesSlot(s: State, n: Name, op: Op)
    requires Inv(s) && Enabled(s, On(n, op)) && (op == Unmark || op == Sync)
    ensures var m, m' := s.members[n], Apply(s, On(n, op)).members[n];
            && m'.drain == m.drain && m'.bn.Some?
            && (op == Unmark ==> !HasSlot(m'.bn.value))
            && (op == Sync ==> m'.bn.value.desired == s.pass.image && !m'.bn.value.approved)
  {
    assert Good(s.pass, s.members[n]);
  }
}
