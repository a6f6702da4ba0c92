/** The startup taint is not forgotten: its record goes only when the taint is gone, and so no Node that a
    pool manages is left tainted without anybody to take the taint off. */
module Taints {
  import opened Types
  import opened Slot
  import opened Classify
  import opened Cluster
  import opened Invariants
  import opened Safety

  // ---- The record goes with the taint ---------------------------------------------------------------

  /** A listed node is not being undone while membership is synced and has been read; once its slot is
      being freed, a taint that is on record is off the Node as the pass has it. */
  predicate Tended(pass: Pass, m: Member) {
    var l := m.local;
    && (pass.Busy? && pass.stage == Syncing && l.listed ==> l.restore == Untouched && l.node.Some?)
    && (pass.Busy? && pass.stage == Rolling && l.own.Some? && l.restore in {NodeDone, ClaimDone} ==>
          OwnsTaint in l.own.value.annotations ==> l.node.Some? && !HasStartupTaint(l.node.value.taints))
  }

  predicate AllTended(s: State) {
    forall n | n in s.members :: Tended(s.pass, s.members[n])
  }

  lemma OpKeepsTended(pass: Pass, m: Member, op: Op)
    requires Good(pass, m) && Tended(pass, m) && Guard(pass, m, op)
    ensures Tended(pass, Effect(pass, m, op))
  {
    if EnvGuard(pass, m, op) {
      EnvOpKeepsLocal(pass, m, op);
    } else if op in {Create, RestoreNode, RestoreClaim, Read} {
      UndoingKeepsTended(pass, m, op);
    } else {
      OtherOpKeepsTended(pass, m, op);
    }
  }

  lemma EnvOpKeepsLocal(pass: Pass, m: Member, op: Op)
    requires EnvGuard(pass, m, op) && (m.local.own.Some? ==> m.bn.Some?)
    ensures Effect(pass, m, op).local == m.local
  {
  }

  lemma UndoingKeepsTended(pass: Pass, m: Member, op: Op)
    requires Good(pass, m) && Tended(pass, m) && CodeGuard(pass, m.local, m.drain, op) && ApiGuard(pass, m, op)
    requires op in {Create, RestoreNode, RestoreClaim, Read}
    ensures Tended(pass, Effect(pass, m, op))
  {
  }

  lemma OtherOpKeepsTended(pass: Pass, m: Member, op: Op)
    requires Good(pass, m) && Tended(pass, m) && CodeGuard(pass, m.local, m.drain, op) && ApiGuard(pass, m, op)
    requires op !in {Create, RestoreNode, RestoreClaim, Read}
    ensures Tended(pass, Effect(pass, m, op))
  {
  }

  lemma TendedIgnoresBudget(pass: Pass, pass': Pass, m: Member)
    requires Tended(pass, m) && (pass'.Busy? ==> pass.Busy? && pass.stage == pass'.stage)
    ensures Tended(pass', m)
  {
  }

  lemma OpStepKeepsTended(s: State, n: Name, op: Op)
    requires AllGood(s) && AllTended(s) && Enabled(s, On(n, op))
    ensures AllTended(Apply(s, On(n, op)))
  {
    var s' := Apply(s, On(n, op));
    assert Good(s.pass, s.members[n]);
    OpKeepsTended(s.pass, s.members[n], op);
    forall k | k in s'.members
      ensures Tended(s'.pass, s'.members[k])
    {
      TendedIgnoresBudget(s.pass, s'.pass, s'.members[k]);
    }
  }

  lemma StepKeepsTended(s: State, a: Action)
    requires Inv(s) && AllTended(s) && Enabled(s, a)
    ensures AllTended(Apply(s, a))
  {
    if a.On? {
      OpStepKeepsTended(s, a.name, a.op);
    } else {
      forall n | n in Apply(s, a).members
        ensures Tended(Apply(s, a).pass, Apply(s, a).members[n])
      {
        if n in s.members { assert Tended(s.pass, s.members[n]); }
      }
    }
  }

  /** No pass, no memory. */
  lemma IdleIsTended(s: State)
    requires Inv(s) && s.pass.Idle?
    ensures AllTended(s)
  {
  }

  lemma {:induction false} RunKeepsTended(s: State, acts: seq<Action>)
    requires Inv(s) && AllTended(s) && Legal(s, acts)
    ensures AllTended(Replay(s, acts))
    decreases |acts|
  {
    if acts != [] {
      var front := acts[..|acts| - 1];
      LastStep(s, acts);
      RunKeepsTended(s, front);
      StepKeepsTended(Replay(s, front), acts[|front|]);
    }
  }

  lemma OpDropsRecord(pass: Pass, m: Member, op: Op)
    requires Good(pass, m) && Tended(pass, m) && Guard(pass, m, op)
    requires OwnsTaint in Record(m) && OwnsTaint !in Record(Effect(pass, m, op))
    ensures op == Delete || ((op == Unmark || op == ClearTaint) && m.local.node.Some?
                             && Taint(OsNotReady, NoSchedule) !in m.local.node.value.taints)
  {
    if ChangesMarks(op) { MarkOpDropsRecord(pass, m, op); } else { OtherOpKeepsMarks(pass, m, op); }
  }

  lemma MarkOpDropsRecord(pass: Pass, m: Member, op: Op)
    requires Tended(pass, m) && Guard(pass, m, op) && ChangesMarks(op)
    requires m.local.own.Some? ==> m.bn.Some? && SameButStatus(m.local.own.value, m.bn.value)
    requires OwnsTaint in Record(m) && OwnsTaint !in Record(Effect(pass, m, op))
    ensures op == Delete || ((op == Unmark || op == ClearTaint) && m.local.node.Some?
                             && Taint(OsNotReady, NoSchedule) !in m.local.node.value.taints)
  {
  }

  /** A record of the startup taint disappears only with the BootcNode, or in a step before which the pass
      has seen to it that the Node has no such taint. */
  lemma RecordGoesWithTaint(s: State, acts: seq<Action>, k: nat, n: Name)
    requires Inv(s) && s.pass.Idle? && Legal(s, acts) && k < |acts|
    requires OwnsTaintNow(At(s, acts, k), n) && !OwnsTaintNow(At(s, acts, k + 1), n)
    ensures var l := At(s, acts, k).members[n].local;
            || acts[k] == On(n, Delete)
            || ((acts[k] == On(n, Unmark) || acts[k] == On(n, ClearTaint)) && l.node.Some?
                && Taint(OsNotReady, NoSchedule) !in l.node.value.taints)
  {
    var t := At(s, acts, k);
    AtStep(s, acts, k);
    AtInv(s, acts, k);
    AtTended(s, acts, k);
    StepDropsRecord(t, acts[k], n);
  }

  lemma AtTended(s: State, acts: seq<Action>, k: nat)
    requires Inv(s) && s.pass.Idle? && Legal(s, acts) && k <= |acts|
    ensures AllTended(At(s, acts, k))
  {
    LegalPrefix(s, acts, k);
    IdleIsTended(s);
    RunKeepsTended(s, acts[..k]);
  }

  lemma StepDropsRecord(s: State, a: Action, n: Name)
    requires Inv(s) && AllTended(s) && Enabled(s, a) && OwnsTaintNow(s, n) && !OwnsTaintNow(Apply(s, a), n)
    ensures var l := s.members[n].local;
            || a == On(n, Delete)
            || ((a == On(n, Unmark) || a == On(n, ClearTaint)) && l.node.Some?
                && Taint(OsNotReady, NoSchedule) !in l.node.value.taints)
  {
    if a.On? && a.name == n {
      assert Good(s.pass, s.members[n]) && Tended(s.pass, s.members[n]);
      OpDropsRecord(s.pass, s.members[n], a.op);
    }
  }

  // ---- No Node is left tainted ----------------------------------------------------------------------

  predicate Tainted(m: Member) {
    m.node.Some? && HasStartupTaint(m.node.value.taints)
  }

  /** Nobody is left with the taint: a managed Node that has it has it on record, and the pass knows. */
  predicate Remembered(m: Member) {
    && (Tainted(m) && m.bn.Some? ==> OwnsTaint in Record(m))
    && (Tainted(m) && m.local.node.Some? ==> HasStartupTaint(m.local.node.value.taints))
  }

  /** Somebody puts the taint on a Node that is managed already. */
  predicate Retaints(s: State, a: Action) {
    || (a.On? && a.op.NodeChanges? && a.name in s.members && HasStartupTaint(a.op.taints) && !Tainted(s.members[a.name]))
    || (a.Joins? && a.name in s.members && HasStartupTaint(a.node.taints)
        && s.members[a.name].bn.Some? && OwnsTaint !in Record(s.members[a.name]))
  }

  predicate AllRemembered(s: State) {
    forall n | n in s.members :: Remembered(s.members[n])
  }

  lemma EnvOpKeepsRemembered(pass: Pass, m: Member, op: Op)
    requires Good(pass, m) && Remembered(m) && EnvGuard(pass, m, op)
    requires op.NodeChanges? && HasStartupTaint(op.taints) ==> Tainted(m)
    ensures Remembered(Effect(pass, m, op))
  {
  }

  lemma NodeOpKeepsRemembered(pass: Pass, m: Member, op: Op)
    requires Good(pass, m) && Remembered(m) && CodeGuard(pass, m.local, m.drain, op) && ApiGuard(pass, m, op)
    requires op in {Read, ReadMissing, LabelOn, LabelOff, RestoreNode, DropTaint, FenceNode}
    ensures Remembered(Effect(pass, m, op))
  {
  }

  lemma RecordOpKeepsRemembered(pass: Pass, m: Member, op: Op)
    requires Good(pass, m) && Tended(pass, m) && Remembered(m)
    requires CodeGuard(pass, m.local, m.drain, op) && ApiGuard(pass, m, op)
    requires op !in {Read, ReadMissing, LabelOn, LabelOff, RestoreNode, DropTaint, FenceNode}
    ensures Remembered(Effect(pass, m, op))
  {
    var m' := Effect(pass, m, op);
    assert m'.node == m.node && m'.local.node == m.local.node;
  }

  lemma OpKeepsRemembered(pass: Pass, m: Member, op: Op)
    requires Good(pass, m) && Tended(pass, m) && Remembered(m) && Guard(pass, m, op)
    requires op.NodeChanges? && HasStartupTaint(op.taints) ==> Tainted(m)
    ensures Remembered(Effect(pass, m, op))
  {
    if EnvGuard(pass, m, op) {
      EnvOpKeepsRemembered(pass, m, op);
    } else if op in {Read, ReadMissing, LabelOn, LabelOff, RestoreNode, DropTaint, FenceNode} {
      NodeOpKeepsRemembered(pass, m, op);
    } else {
      RecordOpKeepsRemembered(pass, m, op);
    }
  }

  lemma StepKeepsRemembered(s: State, a: Action)
    requires Inv(s) && AllTended(s) && AllRemembered(s) && Enabled(s, a) && !Retaints(s, a)
    ensures AllRemembered(Apply(s, a))
  {
    forall n | n in Apply(s, a).members
      ensures Remembered(Apply(s, a).members[n])
    {
      if n in s.members {
        assert Remembered(s.members[n]) && Tended(s.pass, s.members[n]) && Good(s.pass, s.members[n]);
        if a.On? && a.name == n { OpKeepsRemembered(s.pass, s.members[n], a.op); }
      }
    }
  }

  ghost predicate NobodyRetaints(s: State, acts: seq<Action>)
    requires Legal(s, acts)
  {
    forall k: nat | k < |acts| :: SparesAt(s, acts, k)
  }

  ghost predicate SparesAt(s: State, acts: seq<Action>, k: nat)
    requires Legal(s, acts) && k < |acts|
  {
    !Retaints(At(s, acts, k), acts[k])
  }

  lemma NobodyPrefix(s: State, acts: seq<Action>)
    requires Legal(s, acts) && acts != [] && NobodyRetaints(s, acts)
    ensures Legal(s, acts[..|acts| - 1]) && NobodyRetaints(s, acts[..|acts| - 1])
  {
    var front := acts[..|acts| - 1];
    forall k: nat | k < |front|
      ensures SparesAt(s, front, k)
    {
      assert front[..k] == acts[..k];
      assert SparesAt(s, acts, k);
    }
  }

  /** If nobody else taints a managed Node, then after any run every managed Node that has the startup taint
      has it on record, so that the operator takes it off again. */
  lemma {:induction false} NoTaintIsForgotten(s: State, acts: seq<Action>)
    requires Inv(s) && AllTended(s) && AllRemembered(s) && Legal(s, acts) && NobodyRetaints(s, acts)
    ensures AllRemembered(Replay(s, acts))
    decreases |acts|
  {
    if acts != [] {
      NobodyPrefix(s, acts);
      NoTaintIsForgotten(s, acts[..|acts| - 1]);
      RunKeepsTended(s, acts[..|acts| - 1]);
      assert SparesAt(s, acts, |acts| - 1);
      LastStepKeepsRemembered(s, acts);
    }
  }

  lemma LastStepKeepsRemembered(s: State, acts: seq<Action>)
    requires Inv(s) && Legal(s, acts) && acts != [] && SparesAt(s, acts, |acts| - 1)
    requires var front := acts[..|acts| - 1];
             Legal(s, front) && AllTended(Replay(s, front)) && AllRemembered(Replay(s, front))
    ensures AllRemembered(Replay(s, acts))
  {
    var front := acts[..|acts| - 1];
    LastStep(s, acts);
    var t, a := Replay(s, front), acts[|front|];
    assert !Retaints(t, a);
    StepKeepsRemembered(t, a);
  }

  // ---- And the other way round ------------------------------------------------------------------------

  /** A taint that is not on record is not the operator's business. */
  predicate NotOurs(s: State, n: Name) {
    n in s.members && Tainted(s.members[n]) && s.members[n].bn.Some? && OwnsTaint !in Record(s.members[n])
  }

  /** Others change the Node, or its BootcNode goes. */
  predicate Meddles(a: Action, n: Name) {
    (a.On? && a.name == n && (a.op.NodeChanges? || a.op.NodeGoes? || a.op.Delete?)) || (a.Joins? && a.name == n)
  }

  lemma OpKeepsNotOurs(pass: Pass, m: Member, op: Op)
    requires Good(pass, m) && Guard(pass, m, op) && !op.NodeChanges? && !op.NodeGoes? && !op.Delete?
    requires Tainted(m) && m.bn.Some? && OwnsTaint !in Record(m)
    ensures var m' := Effect(pass, m, op); Tainted(m') && m'.bn.Some? && OwnsTaint !in Record(m')
  {
    if ChangesMarks(op) {
      MarkOpKeepsNotOurs(pass, m, op);
    } else {
      OtherOpKeepsMarks(pass, m, op);
      OpKeepsTaint(pass, m, op);
    }
  }

  lemma MarkOpKeepsNotOurs(pass: Pass, m: Member, op: Op)
    requires Good(pass, m) && Guard(pass, m, op) && ChangesMarks(op) && !op.Delete?
    requires Tainted(m) && m.bn.Some? && OwnsTaint !in Record(m)
    ensures var m' := Effect(pass, m, op); Tainted(m') && m'.bn.Some? && OwnsTaint !in Record(m')
  {
  }

  lemma OpKeepsTaint(pass: Pass, m: Member, op: Op)
    requires Guard(pass, m, op) && !ChangesMarks(op) && !op.NodeChanges? && !op.NodeGoes?
    requires m.local.own.Some? ==> m.bn.Some? && SameButStatus(m.local.own.value, m.bn.value)
    requires Tainted(m) && OwnsTaint !in Record(m)
    ensures Tainted(Effect(pass, m, op))
  {
  }

  /** That nobody else taints a managed Node is needed: a taint without a record stays as long as others
      leave it and the BootcNode is not deleted. */
  lemma {:induction false} UnrecordedTaintStays(s: State, acts: seq<Action>, n: Name)
    requires Inv(s) && Legal(s, acts) && NotOurs(s, n) && forall k | 0 <= k < |acts| :: !Meddles(acts[k], n)
    ensures NotOurs(Replay(s, acts), n)
    decreases |acts|
  {
    if acts != [] {
      var front := acts[..|acts| - 1];
      LastStep(s, acts);
      UnrecordedTaintStays(s, front, n);
      StepKeepsNotOurs(Replay(s, front), acts[|front|], n);
    }
  }

  lemma StepKeepsNotOurs(s: State, a: Action, n: Name)
    requires AllGood(s) && Enabled(s, a) && NotOurs(s, n) && !Meddles(a, n)
    ensures NotOurs(Apply(s, a), n)
  {
    if a.On? && a.name == n {
      assert Good(s.pass, s.members[n]);
      OpKeepsNotOurs(s.pass, s.members[n], a.op);
    }
  }
}
