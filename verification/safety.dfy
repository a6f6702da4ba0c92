/** Safety over whole runs: the slot round trip, no orphaned effect, the slot bound, ownership of
    BootcNodes and the startup-taint gate. Every statement is about all runs of the protocol from
    any state that satisfies the invariant, so about every interleaving, restart and failed write. */
module Safety {
  import opened Types
  import opened Slot
  import opened Classify
  import opened Cluster
  import opened Invariants

  /** The member `n` after the first `k` steps of a run. */
  ghost function At(s: State, acts: seq<Action>, k: nat): State
    requires Legal(s, acts) && k <= |acts|
  {
    LegalPrefix(s, acts, k);
    Replay(s, acts[..k])
  }

  lemma AtStep(s: State, acts: seq<Action>, k: nat)
    requires Legal(s, acts) && k < |acts|
    ensures Enabled(At(s, acts, k), acts[k])
    ensures At(s, acts, k + 1) == Apply(At(s, acts, k), acts[k])
  {
    LegalPrefix(s, acts, k + 1);
    assert acts[..k + 1][..k] == acts[..k];
    assert acts[..k + 1][k] == acts[k];
  }

  lemma AtInv(s: State, acts: seq<Action>, k: nat)
    requires Inv(s) && Legal(s, acts) && k <= |acts|
    ensures Inv(At(s, acts, k))
  {
    LegalPrefix(s, acts, k);
    RunKeepsInv(s, acts[..k]);
  }

  /** A run but for its last step. */
  lemma LastStep(s: State, acts: seq<Action>)
    requires Inv(s) && Legal(s, acts) && acts != []
    ensures var front := acts[..|acts| - 1];
            && Legal(s, front) && Inv(Replay(s, front)) && At(s, acts, |front|) == Replay(s, front)
            && Enabled(Replay(s, front), acts[|front|]) && Replay(s, acts) == Apply(Replay(s, front), acts[|front|])
  {
    RunKeepsInv(s, acts[..|acts| - 1]);
  }

  // ---- No orphaned effect -------------------------------------------------------------------

  /** A Node that is cordoned although nobody else cordoned it. */
  predicate OperatorCordon(m: Member) {
    m.node.Some? && m.node.value.unschedulable && !m.found.unschedulable
  }

  /** A fence that is in force although nobody else set it to "true". */
  predicate OperatorFence(now: Annotations, was: Annotations, key: Key) {
    Honoured(now, key) && !Honoured(was, key)
  }

  /** Each cordon and each fence the operator placed is matched by its record on the BootcNode. */
  predicate NoOrphan(m: Member)
    requires m.node.Some?
  {
    && (OperatorCordon(m) ==>
          m.bn.Some? && HasSlot(m.bn.value) && Lookup(m.bn.value.annotations, WasCordoned) == Some("false"))
    && (OperatorFence(m.node.value.annotations, m.found.node, DoNotRepair) ==>
          m.bn.Some? && OwnsNodeRepair in m.bn.value.annotations)
    && (OperatorFence(m.node.value.annotations, m.found.node, DoNotDisrupt) ==>
          m.bn.Some? && OwnsNodeDisrupt in m.bn.value.annotations)
    && (m.claim.Found? && OperatorFence(m.claim.claim.annotations, m.found.claim, DoNotRepair) ==>
          m.bn.Some? && OwnsClaimRepair in m.bn.value.annotations)
    && (m.claim.Found? && OperatorFence(m.claim.claim.annotations, m.found.claim, DoNotDisrupt) ==>
          m.bn.Some? && OwnsClaimDisrupt in m.bn.value.annotations)
  }

  /** At every point of every run this holds of every Node that is not terminating. */
  lemma NoOrphanedEffect(s: State, acts: seq<Action>, k: nat, n: Name)
    requires Inv(s) && Legal(s, acts) && k <= |acts| && n in At(s, acts, k).members
    ensures var m := At(s, acts, k).members[n];
            m.node.Some? && !m.node.value.deleting ==> NoOrphan(m)
    ensures Paired(Record(At(s, acts, k).members[n]))
  {
    AtInv(s, acts, k);
    var t := At(s, acts, k);
    assert Good(t.pass, t.members[n]);
  }

  /** What undoing leaves of one set of annotations: "true" stays "true", a fence the operator
      may have overwritten is gone, everything else is as it was. */
  predicate Returned(before: Annotations, after: Annotations, fenced: bool) {
    && ElseAsFound(after, before)
    && forall k | k in {DoNotRepair, DoNotDisrupt} ::
         if Honoured(before, k) then Honoured(after, k)
         else if fenced then k !in after
         else Lookup(after, k) == Lookup(before, k)
  }

  /** Node and claim carry nothing of the operator's any more. */
  predicate Restored(m: Member) {
    m.node.Some? && !m.node.value.deleting ==>
      && m.node.value.unschedulable == m.found.unschedulable
      && (Honoured(m.found.node, DoNotRepair) <==> Honoured(m.node.value.annotations, DoNotRepair))
      && (Honoured(m.found.node, DoNotDisrupt) <==> Honoured(m.node.value.annotations, DoNotDisrupt))
      && (m.claim.Found? ==>
            && (Honoured(m.found.claim, DoNotRepair) <==> Honoured(m.claim.claim.annotations, DoNotRepair))
            && (Honoured(m.found.claim, DoNotDisrupt) <==> Honoured(m.claim.claim.annotations, DoNotDisrupt)))
  }

  /** At every point of every run, a node that holds no slot carries nothing of the operator's. */
  lemma UnslottedIsRestored(s: State, acts: seq<Action>, k: nat, n: Name)
    requires Inv(s) && Legal(s, acts) && k <= |acts| && n in At(s, acts, k).members
    requires InRebootSlot !in Record(At(s, acts, k).members[n])
    ensures Restored(At(s, acts, k).members[n])
  {
    AtInv(s, acts, k);
    var t := At(s, acts, k);
    assert Good(t.pass, t.members[n]);
  }

  /** A BootcNode is deleted only once its Node and claim are restored and the label is gone, or
      when the Node is gone or terminating. */
  lemma DeletedOnlyWhenRestored(s: State, acts: seq<Action>, k: nat, n: Name)
    requires Inv(s) && Legal(s, acts) && k < |acts| && acts[k] == On(n, Delete)
    ensures n in At(s, acts, k).members
    ensures var m := At(s, acts, k).members[n];
            && Restored(m)
            && (m.node.Some? && !m.node.value.deleting ==> m.node.value.managed == Unlabelled)
  {
    AtStep(s, acts, k);
    AtInv(s, acts, k);
    var t := At(s, acts, k);
    assert Good(t.pass, t.members[n]);
  }

  // ---- Round trip ---------------------------------------------------------------------------

  predicate Disturbs(a: Action, n: Name) {
    (a.On? && a.name == n && a.op.AdminEdits?) || (a.Joins? && a.name == n)
  }

  predicate Undisturbed(acts: seq<Action>, n: Name) {
    forall k | 0 <= k < |acts| :: !Disturbs(acts[k], n)
  }

  /** The kind of claim lookup never changes, except that a claim may disappear. */
  predicate ClaimKept(a: ClaimRef, b: ClaimRef) {
    (a.NoRef? <==> b.NoRef?) && (a.CrdMissing? <==> b.CrdMissing?) && (b.Found? ==> a.Found?)
  }

  /** What holds of a node whose Node was found as in `m0`, without a slot: every fence of a slot is
      owned or was in force before, and a Node without a claim keeps its annotations exactly. */
  predicate Covered(m0: Member, m: Member) {
    var a := Record(m);
    m.node.Some? && !m.node.value.deleting ==>
      && (InRebootSlot in a && !m.claim.NoRef? ==>
            && (OwnsNodeRepair in a || Honoured(m.found.node, DoNotRepair))
            && (OwnsNodeDisrupt in a || Honoured(m.found.node, DoNotDisrupt)))
      && (InRebootSlot in a && m.claim.Found? ==>
            && (OwnsClaimRepair in a || Honoured(m.found.claim, DoNotRepair))
            && (OwnsClaimDisrupt in a || Honoured(m.found.claim, DoNotDisrupt)))
      && (m.claim.NoRef? ==>
            && m0.node.Some? && m.node.value.annotations == m0.node.value.annotations
            && OwnsNodeRepair !in a && OwnsNodeDisrupt !in a)
  }

  lemma SlotOpKeepsCovered(pass: Pass, m0: Member, m: Member, op: Op)
    requires Good(pass, m) && Guard(pass, m, op) && Covered(m0, m) && op in {MarkSlot, RestoreNode, RestoreClaim}
    ensures Covered(m0, Effect(pass, m, op))
  {
    if op == RestoreNode { RestoreNodeKeepsCovered(pass, m0, m); }
  }

  lemma RestoreNodeKeepsCovered(pass: Pass, m0: Member, m: Member)
    requires Good(pass, m) && Guard(pass, m, RestoreNode) && Covered(m0, m)
    ensures Covered(m0, Effect(pass, m, RestoreNode))
  {
  }

  lemma FenceOpKeepsCovered(pass: Pass, m0: Member, m: Member, op: Op)
    requires Good(pass, m) && Guard(pass, m, op) && Covered(m0, m) && op in {FenceClaim, FenceNode, Unmark, Delete, Create}
    ensures Covered(m0, Effect(pass, m, op))
  {
  }

  lemma EnvOpKeepsCovered(pass: Pass, m0: Member, m: Member, op: Op)
    requires Good(pass, m) && EnvGuard(pass, m, op) && Covered(m0, m) && !op.AdminEdits?
    ensures Covered(m0, Effect(pass, m, op))
  {
  }

  lemma OtherOpKeepsCovered(pass: Pass, m0: Member, m: Member, op: Op)
    requires Good(pass, m) && CodeGuard(pass, m.local, m.drain, op) && ApiGuard(pass, m, op) && Covered(m0, m)
    requires op !in {MarkSlot, RestoreNode, RestoreClaim, FenceClaim, FenceNode, Unmark, Delete, Create}
    ensures Covered(m0, Effect(pass, m, op))
  {
    OtherOpKeepsFences(pass, m, op);
    CoveredAlike(m0, m, Effect(pass, m, op));
  }

  /** Nothing that matters to the fences differs. */
  predicate SameFences(m: Member, m': Member) {
    && m'.claim == m.claim && m'.found == m.found && (m'.node.Some? <==> m.node.Some?)
    && (m.node.Some? ==> m'.node.value.annotations == m.node.value.annotations
                         && m'.node.value.deleting == m.node.value.deleting)
    && Record(m') - {OwnsTaint} == Record(m) - {OwnsTaint}
  }

  lemma CoveredAlike(m0: Member, m: Member, m': Member)
    requires Covered(m0, m) && SameFences(m, m')
    ensures Covered(m0, m')
  {
    var a, a' := Record(m), Record(m');
    assert forall k | k != OwnsTaint :: k in a' <==> k in a' - {OwnsTaint};
    assert forall k | k != OwnsTaint :: k in a <==> k in a - {OwnsTaint};
  }

  lemma OtherOpKeepsFences(pass: Pass, m: Member, op: Op)
    requires CodeGuard(pass, m.local, m.drain, op) && ApiGuard(pass, m, op)
    requires m.local.own.Some? ==> m.bn.Some? && SameButStatus(m.local.own.value, m.bn.value)
    requires op !in {MarkSlot, RestoreNode, RestoreClaim, FenceClaim, FenceNode, Unmark, Delete, Create}
    ensures SameFences(m, Effect(pass, m, op))
  {
  }

  lemma OpKeepsCovered(pass: Pass, m0: Member, m: Member, op: Op)
    requires Good(pass, m) && Guard(pass, m, op) && Covered(m0, m) && !op.AdminEdits?
    ensures Covered(m0, Effect(pass, m, op))
  {
    if EnvGuard(pass, m, op) {
      EnvOpKeepsCovered(pass, m0, m, op);
    } else if op in {MarkSlot, RestoreNode, RestoreClaim} {
      SlotOpKeepsCovered(pass, m0, m, op);
    } else if op in {FenceClaim, FenceNode, Unmark, Delete, Create} {
      FenceOpKeepsCovered(pass, m0, m, op);
    } else {
      OtherOpKeepsCovered(pass, m0, m, op);
    }
  }

  lemma OpKeepsBaseline(pass: Pass, m: Member, op: Op)
    requires Good(pass, m) && Guard(pass, m, op) && !op.AdminEdits?
    ensures Effect(pass, m, op).found == m.found
    ensures ClaimKept(m.claim, Effect(pass, m, op).claim)
  {
    if EnvGuard(pass, m, op) {
      EnvOpKeepsBaseline(pass, m, op);
    } else {
      CodeOpKeepsBaseline(pass, m, op);
    }
  }

  lemma EnvOpKeepsBaseline(pass: Pass, m: Member, op: Op)
    requires EnvGuard(pass, m, op) && !op.AdminEdits? && (m.local.own.Some? ==> m.bn.Some?)
    ensures Effect(pass, m, op).found == m.found && ClaimKept(m.claim, Effect(pass, m, op).claim)
  {
  }

  lemma CodeOpKeepsBaseline(pass: Pass, m: Member, op: Op)
    requires CodeGuard(pass, m.local, m.drain, op) && ApiGuard(pass, m, op) && (m.local.own.Some? ==> m.bn.Some?)
    ensures Effect(pass, m, op).found == m.found && ClaimKept(m.claim, Effect(pass, m, op).claim)
  {
  }

  lemma StepKeepsBaseline(s: State, a: Action, n: Name, m0: Member)
    requires Inv(s) && Enabled(s, a) && n in s.members && !Disturbs(a, n) && Covered(m0, s.members[n])
    ensures n in Apply(s, a).members
    ensures Apply(s, a).members[n].found == s.members[n].found
    ensures ClaimKept(s.members[n].claim, Apply(s, a).members[n].claim)
    ensures Covered(m0, Apply(s, a).members[n])
  {
    assert Good(s.pass, s.members[n]);
    match a
    case On(k, op) =>
      if k == n {
        OpKeepsBaseline(s.pass, s.members[n], op);
        OpKeepsCovered(s.pass, m0, s.members[n], op);
      }
    case Joins(k, _, _, _) => assert k != n;
    case _ =>
  }

  lemma {:induction false} RunKeepsBaseline(s: State, acts: seq<Action>, n: Name)
    requires Inv(s) && Legal(s, acts) && n in s.members && Undisturbed(acts, n)
    requires Covered(s.members[n], s.members[n])
    ensures n in Replay(s, acts).members
    ensures Covered(s.members[n], Replay(s, acts).members[n])
    ensures Replay(s, acts).members[n].found == s.members[n].found
    ensures ClaimKept(s.members[n].claim, Replay(s, acts).members[n].claim)
    decreases |acts|
  {
    if acts != [] {
      var front := acts[..|acts| - 1];
      RunKeepsBaseline(s, front, n);
      RunKeepsInv(s, front);
      StepKeepsBaseline(Replay(s, front), acts[|acts| - 1], n, s.members[n]);
    }
  }

  /** An unslotted node's annotations relate to its baseline as one that is freed does. */
  lemma UnslottedFence(a: Annotations, before: Annotations, found: Annotations, after: Annotations,
                       ownerKey: Key, key: Key, record: Annotations)
    requires ownerKey !in a && FenceOk(a, before, found, ownerKey, key)
    requires FenceOk(record, after, found, ownerKey, key)
    requires ownerKey in record ==> key !in after
    ensures Honoured(before, key) ==> Honoured(after, key)
    ensures !Honoured(before, key) && ownerKey in record ==> key !in after
  {
  }

  /** The crash-tolerant round trip. Take any state where `n` holds no slot, and any run from it in
      which nobody else edits the Node: any number of assignments and frees, each stopping after any
      of its writes, with restarts and other pools in between. If the run ends with a completed free,
      the Node is schedulable as before, and each fence on Node and claim is "true" if it was and
      otherwise absent; a Node without a claim keeps its annotations exactly. */
  lemma RoundTrip(s: State, acts: seq<Action>, n: Name)
    requires Inv(s) && n in s.members && Legal(s, acts + [On(n, Unmark)]) && Undisturbed(acts, n)
    requires var m := s.members[n];
             m.node.Some? && !m.node.value.deleting && (m.bn.Some? ==> !HasSlot(m.bn.value))
    ensures n in Replay(s, acts + [On(n, Unmark)]).members
    ensures var m, m' := s.members[n], Replay(s, acts + [On(n, Unmark)]).members[n];
            m'.node.Some? && !m'.node.value.deleting ==>
              && m'.node.value.unschedulable == m.node.value.unschedulable
              && Returned(m.node.value.annotations, m'.node.value.annotations, !m.claim.NoRef?)
              && (m'.claim.Found? ==>
                    m.claim.Found? && Returned(m.claim.claim.annotations, m'.claim.claim.annotations, true))
  {
    var all := acts + [On(n, Unmark)];
    assert all[..|acts|] == acts;
    RunKeepsInv(s, acts);
    assert Good(s.pass, s.members[n]);
    RunKeepsBaseline(s, acts, n);
    var t := Replay(s, acts);
    var m, u, m' := s.members[n], t.members[n], Replay(s, all).members[n];
    assert Good(s.pass, m) && Good(t.pass, u);
    assert m' == Effect(t.pass, u, Unmark);
    assert m'.node == u.node && m'.claim == u.claim;
    if u.node.Some? && !u.node.value.deleting { FreedReturned(t.pass, m, u); }
  }

  lemma FreedReturned(pass: Pass, m: Member, u: Member)
    requires Accounted(m) && Good(pass, u) && Guard(pass, u, Unmark) && Covered(m, u)
    requires m.found == u.found && ClaimKept(m.claim, u.claim)
    requires m.node.Some? && !m.node.value.deleting && InRebootSlot !in Record(m)
    requires u.node.Some? && !u.node.value.deleting
    ensures u.node.value.unschedulable == m.node.value.unschedulable
    ensures Returned(m.node.value.annotations, u.node.value.annotations, !m.claim.NoRef?)
    ensures u.claim.Found? ==> m.claim.Found? && Returned(m.claim.claim.annotations, u.claim.claim.annotations, true)
  {
    var a, r := Record(m), Record(u);
    assert ElseAsFound(u.node.value.annotations, m.node.value.annotations);
    UnslottedFence(a, m.node.value.annotations, m.found.node, u.node.value.annotations, OwnsNodeRepair, DoNotRepair, r);
    UnslottedFence(a, m.node.value.annotations, m.found.node, u.node.value.annotations, OwnsNodeDisrupt, DoNotDisrupt, r);
    if u.claim.Found? {
      UnslottedFence(a, m.claim.claim.annotations, m.found.claim, u.claim.claim.annotations, OwnsClaimRepair, DoNotRepair, r);
      UnslottedFence(a, m.claim.claim.annotations, m.found.claim, u.claim.claim.annotations, OwnsClaimDisrupt, DoNotDisrupt, r);
    }
  }

  // ---- Slots --------------------------------------------------------------------------------

  /** Every budget that passes of `p` draw in the run comes from a limit of at most `bound`. */
  ghost predicate LimitsWithin(s: State, acts: seq<Action>, p: Pool, bound: int)
    requires Legal(s, acts)
  {
    forall k | 0 <= k < |acts| ::
      acts[k].Allot? && At(s, acts, k).pass.Busy? && At(s, acts, k).pass.pool == p ==> acts[k].limit <= bound
  }

  lemma LimitsWithinPrefix(s: State, acts: seq<Action>, p: Pool, bound: int)
    requires Legal(s, acts) && acts != [] && LimitsWithin(s, acts, p, bound)
    ensures Legal(s, acts[..|acts| - 1]) && LimitsWithin(s, acts[..|acts| - 1], p, bound)
  {
    var front := acts[..|acts| - 1];
    LegalPrefix(s, acts, |acts| - 1);
    forall k | 0 <= k < |front|
      ensures At(s, front, k) == At(s, acts, k)
    {
      assert front[..k] == acts[..k];
    }
  }

  predicate Within(s: State, p: Pool, bound: int) {
    s.pass.Busy? && s.pass.pool == p && s.pass.budget > 0 ==> s.pass.limit <= bound
  }

  lemma OpWithin(s: State, n: Name, op: Op, p: Pool, bound: int)
    requires Inv(s) && Enabled(s, On(n, op)) && Within(s, p, bound)
    ensures var s' := Apply(s, On(n, op));
            Within(s', p, bound) && (|Slots(s', p)| <= |Slots(s, p)| || |Slots(s', p)| <= bound)
  {
    assert Good(s.pass, s.members[n]);
    OpOnSlot(s.pass, s.members[n], op, p);
    SlotsAfterOp(s, n, op, p);
  }

  lemma OtherStepWithin(s: State, a: Action, p: Pool, bound: int)
    requires Enabled(s, a) && !a.On? && Within(s, p, bound)
    requires a.Allot? && s.pass.Busy? && s.pass.pool == p ==> a.limit <= bound
    ensures Within(Apply(s, a), p, bound) && Slots(Apply(s, a), p) == Slots(s, p)
  {
    var s' := Apply(s, a);
    forall n
      ensures n in Slots(s', p) <==> n in Slots(s, p)
    {
    }
  }

  lemma StepWithin(s: State, a: Action, p: Pool, bound: int)
    requires Inv(s) && Enabled(s, a) && Within(s, p, bound)
    requires a.Allot? && s.pass.Busy? && s.pass.pool == p ==> a.limit <= bound
    ensures Within(Apply(s, a), p, bound)
    ensures |Slots(Apply(s, a), p)| <= |Slots(s, p)| || |Slots(Apply(s, a), p)| <= bound
  {
    if a.On? { OpWithin(s, a.name, a.op, p, bound); } else { OtherStepWithin(s, a, p, bound); }
  }

  lemma LastStepWithin(s: State, acts: seq<Action>, p: Pool, bound: int)
    requires Inv(s) && Legal(s, acts) && acts != [] && LimitsWithin(s, acts, p, bound)
    requires Legal(s, acts[..|acts| - 1]) && Within(Replay(s, acts[..|acts| - 1]), p, bound)
    ensures var t, t' := Replay(s, acts[..|acts| - 1]), Replay(s, acts);
            Within(t', p, bound) && (|Slots(t', p)| <= |Slots(t, p)| || |Slots(t', p)| <= bound)
  {
    LastStep(s, acts);
    StepWithin(Replay(s, acts[..|acts| - 1]), acts[|acts| - 1], p, bound);
  }

  /** The slot bound: over any run, wherever passes stop and whatever fails, a pool holds no more
      slots than the larger of what it held at the start and the largest maxUnavailable that its
      passes resolved on the way. */
  lemma {:induction false} SlotBound(s: State, acts: seq<Action>, p: Pool, bound: int)
    requires Inv(s) && Legal(s, acts) && LimitsWithin(s, acts, p, bound) && Within(s, p, bound)
    ensures |Slots(Replay(s, acts), p)| <= |Slots(s, p)| || |Slots(Replay(s, acts), p)| <= bound
    ensures Within(Replay(s, acts), p, bound)
    decreases |acts|
  {
    if acts != [] {
      LimitsWithinPrefix(s, acts, p, bound);
      SlotBound(s, acts[..|acts| - 1], p, bound);
      LastStepWithin(s, acts, p, bound);
    }
  }

  /** A slot is given up only by the pass of its pool, and only when that pass sees the node
      UpToDate with its Node Ready, or when the node leaves the pool. */
  lemma SlotGivenUp(s: State, acts: seq<Action>, k: nat, n: Name, p: Pool)
    requires Inv(s) && Legal(s, acts) && k < |acts|
    requires n in Slots(At(s, acts, k), p) && n !in Slots(At(s, acts, k + 1), p)
    ensures var t := At(s, acts, k);
            && t.pass.Busy? && t.pass.pool == p
            && ((acts[k] == On(n, Unmark) && SeenHealthy(t.pass, t.members[n].local)) ||
                (acts[k] == On(n, Delete) && Leaving(t.pass, t.members[n].local)))
  {
    AtStep(s, acts, k);
    AtInv(s, acts, k);
    var t := At(s, acts, k);
    SlotLostByItsStep(t, acts[k], n, p);
    assert Good(t.pass, t.members[n]);
    OpOnSlot(t.pass, t.members[n], acts[k].op, p);
  }

  lemma SlotLostByItsStep(s: State, a: Action, n: Name, p: Pool)
    requires Enabled(s, a) && n in Slots(s, p) && n !in Slots(Apply(s, a), p)
    ensures a.On? && a.name == n
  {
  }

  // ---- Ownership ----------------------------------------------------------------------------

  lemma StepOnOwner(s: State, a: Action, n: Name)
    requires Inv(s) && Enabled(s, a) && n in s.members && s.members[n].bn.Some?
    ensures n in Apply(s, a).members
    ensures || (Apply(s, a).members[n].bn.Some? && Apply(s, a).members[n].bn.value.owner == s.members[n].bn.value.owner)
            || (a == On(n, Delete) && s.pass.Busy? && s.members[n].bn.value.owner == Some(s.pass.pool))
  {
    if a.On? && a.name == n {
      assert Good(s.pass, s.members[n]);
      OpOnOwner(s.pass, s.members[n], a.op);
    }
  }

  /** The step after the first `k` does not delete the BootcNode of `n` for its owner `o`. */
  ghost predicate SparedAt(s: State, acts: seq<Action>, k: nat, n: Name, o: Option<Pool>)
    requires Legal(s, acts) && k < |acts|
  {
    acts[k] == On(n, Delete) ==> At(s, acts, k).pass.Busy? && o != Some(At(s, acts, k).pass.pool)
  }

  lemma SparedPrefix(s: State, acts: seq<Action>, n: Name, o: Option<Pool>)
    requires Legal(s, acts) && acts != [] && forall k: nat | k < |acts| :: SparedAt(s, acts, k, n, o)
    ensures var front := acts[..|acts| - 1];
            Legal(s, front) && forall k: nat | k < |front| :: SparedAt(s, front, k, n, o)
    ensures At(s, acts, |acts| - 1) == Replay(s, acts[..|acts| - 1])
  {
    var front := acts[..|acts| - 1];
    forall k: nat | k < |front|
      ensures SparedAt(s, front, k, n, o)
    {
      assert front[..k] == acts[..k];
      assert SparedAt(s, acts, k, n, o);
    }
  }

  predicate OwnerIs(s: State, n: Name, o: Option<Pool>) {
    n in s.members && s.members[n].bn.Some? && s.members[n].bn.value.owner == o
  }

  lemma LastStepOnOwner(s: State, acts: seq<Action>, n: Name, o: Option<Pool>)
    requires Inv(s) && Legal(s, acts) && acts != [] && SparedAt(s, acts, |acts| - 1, n, o)
    requires Legal(s, acts[..|acts| - 1]) && OwnerIs(Replay(s, acts[..|acts| - 1]), n, o)
    ensures OwnerIs(Replay(s, acts), n, o)
  {
    LastStep(s, acts);
    StepOnOwner(Replay(s, acts[..|acts| - 1]), acts[|acts| - 1], n);
  }

  /** However pools overlap, a BootcNode keeps the owner it has until a pass of that owner deletes it. */
  lemma {:induction false} OwnerUntilDeleted(s: State, acts: seq<Action>, n: Name)
    requires Inv(s) && Legal(s, acts) && n in s.members && s.members[n].bn.Some?
    requires forall k: nat | k < |acts| :: SparedAt(s, acts, k, n, s.members[n].bn.value.owner)
    ensures OwnerIs(Replay(s, acts), n, s.members[n].bn.value.owner)
    decreases |acts|
  {
    if acts != [] {
      var o := s.members[n].bn.value.owner;
      SparedPrefix(s, acts, n, o);
      OwnerUntilDeleted(s, acts[..|acts| - 1], n);
      assert SparedAt(s, acts, |acts| - 1, n, o);
      LastStepOnOwner(s, acts, n, o);
    }
  }

  /** At every point of every run: a managed label the operator put on a Node that is not
      terminating has a BootcNode, and a removed pool owns none. */
  lemma LabelsAndPoolsBacked(s: State, acts: seq<Action>, k: nat, n: Name)
    requires Inv(s) && Legal(s, acts) && k <= |acts| && n in At(s, acts, k).members
    ensures var t := At(s, acts, k);
            var m := t.members[n];
            && (m.node.Some? && !m.node.value.deleting && m.node.value.managed == ByOperator ==> m.bn.Some?)
            && (m.bn.Some? && m.bn.value.owner.Some? ==>
                  m.bn.value.owner.value in t.pools && !t.pools[m.bn.value.owner.value].Removed?)
  {
    AtInv(s, acts, k);
    var t := At(s, acts, k);
    assert Good(t.pass, t.members[n]);
    if t.members[n].bn.Some? && t.members[n].bn.value.owner.Some? {
      assert PoolOk(t, t.members[n].bn.value.owner.value);
    }
  }

  // ---- Startup taint ------------------------------------------------------------------------

  predicate Tainted(m: Member) {
    m.node.Some? && HasStartupTaint(m.node.value.taints)
  }

  predicate ByOperatorStep(a: Action) {
    !(a.On? && (a.op.NodeChanges? || a.op.NodeGoes?))
  }

  lemma OpOnTaint(pass: Pass, m: Member, op: Op)
    requires Good(pass, m) && Guard(pass, m, op) && !op.NodeChanges? && !op.NodeGoes?
    requires Tainted(m) && !Tainted(Effect(pass, m, op))
    ensures op == RestoreNode || op == DropTaint
    ensures SeenHealthy(pass, m.local) && OwnsTaint in m.bn.value.annotations
    ensures Effect(pass, m, op).node.Some?
    ensures Effect(pass, m, op).node.value.taints == WithoutStartupTaint(m.node.value.taints)
  {
  }

  /** The gate: in every run, the operator takes the startup taint off a Node only in a pass that
      sees it UpToDate and Ready, only if its BootcNode records it, and takes off nothing else. */
  lemma TaintGate(s: State, acts: seq<Action>, k: nat, n: Name)
    requires Inv(s) && Legal(s, acts) && k < |acts| && ByOperatorStep(acts[k])
    requires n in At(s, acts, k).members && n in At(s, acts, k + 1).members
    requires Tainted(At(s, acts, k).members[n]) && !Tainted(At(s, acts, k + 1).members[n])
    ensures var t := At(s, acts, k);
            && SeenHealthy(t.pass, t.members[n].local)
            && t.members[n].bn.Some? && OwnsTaint in t.members[n].bn.value.annotations
    ensures At(s, acts, k + 1).members[n].node.Some?
    ensures At(s, acts, k + 1).members[n].node.value.taints
            == WithoutStartupTaint(At(s, acts, k).members[n].node.value.taints)
  {
    AtStep(s, acts, k);
    AtInv(s, acts, k);
    var t, a := At(s, acts, k), acts[k];
    assert Good(t.pass, t.members[n]);
    if a.On? && a.name == n {
      OpOnTaint(t.pass, t.members[n], a.op);
    }
  }

  predicate OwnsTaintNow(s: State, n: Name) {
    n in s.members && s.members[n].bn.Some? && OwnsTaint in s.members[n].bn.value.annotations
  }

  lemma MarkOpOnTaintRecord(pass: Pass, m: Member, op: Op)
    requires Guard(pass, m, op) && ChangesMarks(op)
    requires m.local.own.Some? ==> m.bn.Some? && SameButStatus(m.local.own.value, m.bn.value)
    requires OwnsTaint !in Record(m) && OwnsTaint in Record(Effect(pass, m, op))
    ensures op == Create && m.local.node.Some? && HasStartupTaint(m.local.node.value.taints)
  {
  }

  lemma OpOnTaintRecord(pass: Pass, m: Member, op: Op)
    requires Good(pass, m) && Guard(pass, m, op)
    requires OwnsTaint !in Record(m) && OwnsTaint in Record(Effect(pass, m, op))
    ensures op == Create && m.local.node.Some? && HasStartupTaint(m.local.node.value.taints)
  {
    if ChangesMarks(op) { MarkOpOnTaintRecord(pass, m, op); } else { OtherOpKeepsMarks(pass, m, op); }
  }

  lemma StepOnTaintRecord(s: State, a: Action, n: Name)
    requires Inv(s) && Enabled(s, a)
    requires !OwnsTaintNow(s, n) && OwnsTaintNow(Apply(s, a), n)
    ensures a == On(n, Create)
    ensures n in s.members && s.members[n].local.node.Some? && HasStartupTaint(s.members[n].local.node.value.taints)
  {
    if a.On? && a.name == n {
      assert Good(s.pass, s.members[n]);
      OpOnTaintRecord(s.pass, s.members[n], a.op);
    }
  }

  /** The running pass has read the Node with the startup taint on it. */
  predicate ListedTainted(s: State, n: Name) {
    n in s.members && s.members[n].local.node.Some? && HasStartupTaint(s.members[n].local.node.value.taints)
  }

  /** A record of the taint goes back to the creation of the BootcNode, by a pass that had listed
      the Node with the taint on it. */
  lemma {:induction false} TaintRecordedAtCreation(s: State, acts: seq<Action>, n: Name) returns (k: nat)
    requires Inv(s) && Legal(s, acts)
    requires !OwnsTaintNow(s, n) && OwnsTaintNow(Replay(s, acts), n)
    ensures k < |acts| && acts[k] == On(n, Create) && ListedTainted(At(s, acts, k), n)
    decreases |acts|
  {
    var front := acts[..|acts| - 1];
    LegalPrefix(s, acts, |front|);
    if OwnsTaintNow(Replay(s, front), n) {
      k := TaintRecordedAtCreation(s, front, n);
      assert front[..k] == acts[..k];
    } else {
      k := |front|;
      LastStepOnTaint(s, acts, n);
    }
  }

  lemma LastStepOnTaint(s: State, acts: seq<Action>, n: Name)
    requires Inv(s) && Legal(s, acts) && acts != []
    requires var front := acts[..|acts| - 1];
             Legal(s, front) && !OwnsTaintNow(Replay(s, front), n) && OwnsTaintNow(Replay(s, acts), n)
    ensures acts[|acts| - 1] == On(n, Create) && ListedTainted(At(s, acts, |acts| - 1), n)
  {
    LastStep(s, acts);
    StepOnTaintRecord(Replay(s, acts[..|acts| - 1]), acts[|acts| - 1], n);
  }

  /** Removing the startup taint is a stable filter: the other taints keep their order. */
  lemma {:induction false} OtherTaintsKeepOrder(a: seq<Taint>, b: seq<Taint>)
    ensures WithoutStartupTaint(a + b) == WithoutStartupTaint(a) + WithoutStartupTaint(b)
  {
    if a == [] {
      assert a + b == b;
    } else {
      assert (a + b)[0] == a[0] && (a + b)[1..] == a[1..] + b;
      OtherTaintsKeepOrder(a[1..], b);
    }
  }
}
