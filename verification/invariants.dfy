/** What every step of the protocol keeps, node by node, and what follows for all runs. */
module Invariants {
  import opened Types
  import opened Slot
  import opened Classify
  import opened Cluster
  import D = Daemon

  // ---- One node -----------------------------------------------------------------------------

  /** Slot and was-cordoned marks appear and vanish together, the latter says yes or no, and there is
      no ownership mark without them. */
  predicate Paired(a: Annotations) {
    && (InRebootSlot in a <==> WasCordoned in a)
    && (WasCordoned in a ==> a[WasCordoned] == "true" || a[WasCordoned] == "false")
    && (OwnsNodeRepair in a || OwnsNodeDisrupt in a || OwnsClaimRepair in a || OwnsClaimDisrupt in a
        ==> InRebootSlot in a)
  }

  /** One fence: a value that differs from what was found is on record as the operator's, and
      what the operator has on record was not set to "true" by anybody else. */
  predicate FenceOk(a: Annotations, now: Annotations, was: Annotations, ownerKey: Key, key: Key) {
    if ownerKey in a then
      && !Honoured(was, key)
      && (Lookup(now, key) == Lookup(was, key) || Honoured(now, key) || key !in now)
    else
      || Lookup(now, key) == Lookup(was, key)
      || (!Honoured(was, key) && key !in now)
  }

  /** Nothing but the two fences is ever touched. */
  predicate ElseAsFound(now: Annotations, was: Annotations) {
    now - {DoNotRepair, DoNotDisrupt} == was - {DoNotRepair, DoNotDisrupt}
  }

  predicate CordonOk(a: Annotations, now: bool, was: bool) {
    if InRebootSlot in a then
      Lookup(a, WasCordoned) == Some(if was then "true" else "false") && (was ==> now)
    else now == was
  }

  /** No effect without a record: cordon and fences of a Node that is not going away. */
  predicate Accounted(m: Member) {
    var a := Record(m);
    && Paired(a)
    && (m.node.Some? && !m.node.value.deleting ==>
          && CordonOk(a, m.node.value.unschedulable, m.found.unschedulable)
          && FenceOk(a, m.node.value.annotations, m.found.node, OwnsNodeRepair, DoNotRepair)
          && FenceOk(a, m.node.value.annotations, m.found.node, OwnsNodeDisrupt, DoNotDisrupt)
          && ElseAsFound(m.node.value.annotations, m.found.node)
          && (m.claim.Found? ==>
                && ElseAsFound(m.claim.claim.annotations, m.found.claim)
                && FenceOk(a, m.claim.claim.annotations, m.found.claim, OwnsClaimRepair, DoNotRepair)
                && FenceOk(a, m.claim.claim.annotations, m.found.claim, OwnsClaimDisrupt, DoNotDisrupt)))
  }

  predicate SameButStatus(a: BootcNode, b: BootcNode) {
    a.(status := NO_STATUS) == b.(status := NO_STATUS)
  }

  /** The parts of a Node that only the operator writes while a pass runs. */
  predicate SameGrip(a: Node, b: Node) {
    a.unschedulable == b.unschedulable && a.annotations == b.annotations && a.managed == b.managed
    && (a.deleting ==> b.deleting)
  }

  predicate SameClaim(a: ClaimRef, b: ClaimRef) {
    match a
    case NoRef => b.NoRef?
    case CrdMissing => b.CrdMissing?
    case Gone => b.Gone?
    case Found(c) => b.Gone? || (b.Found? && b.claim.annotations == c.annotations)
  }

  /** What the running pass remembers is what is stored, up to the parts others may change. */
  predicate Faithful(pass: Pass, m: Member) {
    var l := m.local;
    && (pass.Idle? ==> l == NO_LOCAL)
    && (pass.Busy? ==> (l.own.Some? <==> m.bn.Some? && m.bn.value.owner == Some(pass.pool)))
    && (l.own.Some? ==> m.bn.Some? && SameButStatus(l.own.value, m.bn.value))
    && (l.node.Some? && m.node.Some? ==> SameGrip(l.node.value, m.node.value))
    && (l.node.Some? && l.restore == Untouched ==> SameClaim(l.claim, m.claim))
    && (pass.Busy? && pass.stage == Rolling && l.own.Some? ==> l.own.value.desired == pass.image)
  }

  predicate CleanTarget(a: Annotations, target: Annotations, repair: Key, disrupt: Key) {
    && (repair in a ==> DoNotRepair !in target)
    && (disrupt in a ==> DoNotDisrupt !in target)
  }

  /** Progress of undoing, as far as the pass has recorded it. */
  predicate Undone(m: Member) {
    var l := m.local;
    && (l.restore == NodeMissing ==> m.node.None?)
    && (l.restore in {NodeDone, ClaimDone, LabelDone} && l.own.Some? && m.node.Some? && !m.node.value.deleting ==>
          && m.node.value.unschedulable == m.found.unschedulable
          && CleanTarget(Record(m), m.node.value.annotations, OwnsNodeRepair, OwnsNodeDisrupt))
    && (l.restore in {ClaimDone, LabelDone} && l.own.Some? && m.claim.Found? ==>
          CleanTarget(Record(m), m.claim.claim.annotations, OwnsClaimRepair, OwnsClaimDisrupt))
    && (l.restore == LabelDone && m.node.Some? ==> m.node.value.managed == Unlabelled)
  }

  /** An operator-placed managed label always has a BootcNode behind it, and so has a drain. */
  predicate Backed(m: Member) {
    && (m.node.Some? && !m.node.value.deleting && m.node.value.managed == ByOperator ==> m.bn.Some?)
    && (m.drain.Some? ==> m.bn.Some? && m.bn.value.owner.Some?)
  }

  predicate Good(pass: Pass, m: Member) {
    Accounted(m) && Faithful(pass, m) && Undone(m) && Backed(m)
  }

  /** The pass seen by `Good`: the budget does not matter to it. */
  lemma GoodIgnoresBudget(pass: Pass, pass': Pass, m: Member)
    requires Good(pass, m)
    requires pass.Busy? == pass'.Busy?
    requires pass.Busy? ==> pass.pool == pass'.pool && pass.image == pass'.image && pass.stage == pass'.stage
    ensures Good(pass', m)
  {
  }

  lemma MembershipOpKeepsGood(pass: Pass, m: Member, op: Op)
    requires Good(pass, m) && Guard(pass, m, op)
    requires op in {Read, ReadMissing, Create, LabelOn, Sync, CancelDrain, LabelOff, Delete}
    ensures Good(pass, Effect(pass, m, op))
  {
  }

  lemma RestoreKeepsGood(pass: Pass, m: Member, op: Op)
    requires Good(pass, m) && Guard(pass, m, op)
    requires op in {RestoreNode, RestoreClaim, Unmark}
    ensures Good(pass, Effect(pass, m, op))
  {
    if op == RestoreNode { RestoreNodeKeepsGood(pass, m); }
  }

  lemma RestoreNodeKeepsGood(pass: Pass, m: Member)
    requires Good(pass, m) && Guard(pass, m, RestoreNode)
    ensures Good(pass, Effect(pass, m, RestoreNode))
  {
  }

  lemma MarkSlotKeepsGood(pass: Pass, m: Member)
    requires Good(pass, m) && Guard(pass, m, MarkSlot)
    ensures Good(pass, Effect(pass, m, MarkSlot))
  {
    var m' := Effect(pass, m, MarkSlot);
    var a := m.local.own.value.annotations;
    assert Record(m) == a;
    assert Record(m') == SlotRecord(a, m.local.node.value, m.local.claim);
    assert m' == m.(bn := m'.bn, local := m'.local);
    assert Faithful(pass, m');
    assert Paired(Record(m'));
    assert Undone(m');
  }

  lemma FenceClaimKeepsGood(pass: Pass, m: Member)
    requires Good(pass, m) && Guard(pass, m, FenceClaim)
    ensures Good(pass, Effect(pass, m, FenceClaim))
  {
  }

  lemma FenceNodeKeepsGood(pass: Pass, m: Member)
    requires Good(pass, m) && Guard(pass, m, FenceNode)
    ensures Good(pass, Effect(pass, m, FenceNode))
  {
  }

  lemma RolloutOpKeepsGood(pass: Pass, m: Member, op: Op)
    requires Good(pass, m) && Guard(pass, m, op)
    requires op.Collect? || op.StartDrain? || op.DropTaint? || op.ClearTaint?
    ensures Good(pass, Effect(pass, m, op))
  {
  }

  lemma EnvOpKeepsGood(pass: Pass, m: Member, op: Op)
    requires Good(pass, m) && EnvGuard(pass, m, op)
    ensures Good(pass, Effect(pass, m, op))
  {
    if op.AdminEdits? { EditKeepsGood(pass, m, op); }
  }

  lemma EditKeepsGood(pass: Pass, m: Member, op: Op)
    requires Good(pass, m) && EnvGuard(pass, m, op) && op.AdminEdits?
    ensures Good(pass, Effect(pass, m, op))
  {
  }

  lemma OpKeepsGood(pass: Pass, m: Member, op: Op)
    requires Good(pass, m) && Guard(pass, m, op)
    ensures Good(pass, Effect(pass, m, op))
  {
    if EnvGuard(pass, m, op) {
      EnvOpKeepsGood(pass, m, op);
    } else {
      match op
      case MarkSlot => MarkSlotKeepsGood(pass, m);
      case FenceClaim => FenceClaimKeepsGood(pass, m);
      case FenceNode => FenceNodeKeepsGood(pass, m);
      case RestoreNode => RestoreKeepsGood(pass, m, op);
      case RestoreClaim => RestoreKeepsGood(pass, m, op);
      case Unmark => RestoreKeepsGood(pass, m, op);
      case Collect(_) => RolloutOpKeepsGood(pass, m, op);
      case StartDrain => RolloutOpKeepsGood(pass, m, op);
      case DropTaint => RolloutOpKeepsGood(pass, m, op);
      case ClearTaint => RolloutOpKeepsGood(pass, m, op);
      case _ => MembershipOpKeepsGood(pass, m, op);
    }
  }

  lemma SmallerSet<A>(x: set<A>, y: set<A>)
    requires x <= y
    ensures |x| <= |y| && (x != y ==> |x| < |y|)
  {
    var rest := y - x;
    assert y == x + rest;
  }

  // ---- The whole cluster --------------------------------------------------------------------

  /** BootcNodes belong only to pools that still hold the cleanup finalizer. */
  predicate PoolOk(s: State, p: Pool) {
    p in s.pools && (s.pools[p].Live? || s.pools[p].Terminating?)
  }

  predicate Owned(s: State) {
    && (forall n | n in s.members && s.members[n].bn.Some? && s.members[n].bn.value.owner.Some? ::
          PoolOk(s, s.members[n].bn.value.owner.value))
    && (s.pass.Busy? && s.pass.stage != Deleting ==> PoolOk(s, s.pass.pool))
  }

  /** The budget the running pass still has fits under its limit together with the slots held. */
  predicate Budgeted(s: State) {
    s.pass.Busy? && s.pass.budget > 0 ==>
      s.pass.stage == Rolling && |Slots(s, s.pass.pool)| + s.pass.budget <= s.pass.limit
  }

  predicate AllGood(s: State) {
    forall n | n in s.members :: Good(s.pass, s.members[n])
  }

  predicate Inv(s: State) {
    AllGood(s) && Owned(s) && Budgeted(s)
  }

  /** The pass counts exactly the slots that are held. */
  lemma OccupiedIsSlots(s: State)
    requires AllGood(s) && s.pass.Busy?
    ensures Occupied(s) == Slots(s, s.pass.pool)
  {
    forall n | n in s.members
      ensures n in Occupied(s) <==> n in Slots(s, s.pass.pool)
    {
      assert Good(s.pass, s.members[n]);
    }
  }

  predicate ChangesMarks(op: Op) {
    op in {Create, Sync, Delete, Unmark, ClearTaint, MarkSlot} || op.Collect?
  }

  lemma OtherOpKeepsMarks(pass: Pass, m: Member, op: Op)
    requires Good(pass, m) && Guard(pass, m, op) && !ChangesMarks(op)
    ensures PassAfter(pass, m, op) == pass
    ensures var m' := Effect(pass, m, op);
            (m'.bn.Some? <==> m.bn.Some?) && (m.bn.Some? ==> SameButStatus(m.bn.value, m'.bn.value))
  {
  }

  lemma MarkOpOnSlot(pass: Pass, m: Member, op: Op, p: Pool)
    requires Good(pass, m) && Guard(pass, m, op) && ChangesMarks(op)
    ensures SlottedIn(Effect(pass, m, op), p) && !SlottedIn(m, p) ==>
              op == MarkSlot && pass.pool == p && pass.budget > 0 && PassAfter(pass, m, op).budget == pass.budget - 1
    ensures !SlottedIn(Effect(pass, m, op), p) && SlottedIn(m, p) ==>
              && pass.Busy? && pass.pool == p
              && ((op == Unmark && SeenHealthy(pass, m.local)) || op == Delete)
    ensures SlottedIn(Effect(pass, m, op), p) == SlottedIn(m, p) ==> PassAfter(pass, m, op) == pass || pass.pool != p
  {
  }

  /** How one step changes the slots of a pool. */
  lemma OpOnSlot(pass: Pass, m: Member, op: Op, p: Pool)
    requires Good(pass, m) && Guard(pass, m, op)
    ensures SlottedIn(Effect(pass, m, op), p) && !SlottedIn(m, p) ==>
              op == MarkSlot && pass.pool == p && pass.budget > 0 && PassAfter(pass, m, op).budget == pass.budget - 1
    ensures !SlottedIn(Effect(pass, m, op), p) && SlottedIn(m, p) ==>
              && pass.Busy? && pass.pool == p
              && ((op == Unmark && SeenHealthy(pass, m.local)) || op == Delete)
    ensures SlottedIn(Effect(pass, m, op), p) == SlottedIn(m, p) ==> PassAfter(pass, m, op) == pass || pass.pool != p
  {
    if ChangesMarks(op) { MarkOpOnSlot(pass, m, op, p); } else { OtherOpKeepsMarks(pass, m, op); }
  }

  lemma SlotsDifferAt(s: State, s': State, n: Name, p: Pool)
    requires s'.members.Keys == s.members.Keys
    requires forall k | k in s.members && k != n :: s'.members[k] == s.members[k]
    ensures || Slots(s', p) == Slots(s, p)
            || (Slots(s', p) == Slots(s, p) + {n} && n !in Slots(s, p))
            || (Slots(s', p) == Slots(s, p) - {n} && n in Slots(s, p))
  {
    var x, y := Slots(s, p), Slots(s', p);
    assert forall k | k != n :: k in y <==> k in x;
    if (n in x) == (n in y) {
      assert x == y;
    } else if n in y {
      assert y == x + {n};
    } else {
      assert y == x - {n};
    }
  }

  lemma SlotsAfterOp(s: State, n: Name, op: Op, p: Pool)
    requires Enabled(s, On(n, op))
    ensures var s' := Apply(s, On(n, op));
            || Slots(s', p) == Slots(s, p)
            || (Slots(s', p) == Slots(s, p) + {n} && n !in Slots(s, p))
            || (Slots(s', p) == Slots(s, p) - {n} && n in Slots(s, p))
  {
    SlotsDifferAt(s, Apply(s, On(n, op)), n, p);
  }

  /** A BootcNode keeps its owner until a pass of that owner deletes it, and is created only by
      a pass of the pool it then belongs to. */
  lemma OpOnOwner(pass: Pass, m: Member, op: Op)
    requires Good(pass, m) && Guard(pass, m, op)
    ensures var m' := Effect(pass, m, op);
            if m.bn.Some? then
              || (m'.bn.Some? && m'.bn.value.owner == m.bn.value.owner)
              || (m'.bn.None? && op == Delete && pass.Busy? && m.bn.value.owner == Some(pass.pool))
            else
              m'.bn.Some? ==> op == Create && pass.Busy? && pass.stage == Syncing && m'.bn.value.owner == Some(pass.pool)
  {
    if ChangesMarks(op) { MarkOpOnOwner(pass, m, op); } else { OtherOpKeepsMarks(pass, m, op); }
  }

  lemma MarkOpOnOwner(pass: Pass, m: Member, op: Op)
    requires Good(pass, m) && Guard(pass, m, op) && ChangesMarks(op)
    ensures pass.Busy? && (op != Create ==> m.local.own.Some? || op.Collect?)
    ensures var m' := Effect(pass, m, op);
            && (op == Create ==> m.bn.None? && pass.stage == Syncing && m'.bn.Some? && m'.bn.value.owner == Some(pass.pool))
            && (op == Delete ==> m'.bn.None? && m.bn.Some? && m.bn.value.owner == Some(pass.pool))
            && (op != Create && op != Delete ==> m'.bn.Some? == m.bn.Some?)
            && (op != Create && op != Delete && m.bn.Some? ==> m'.bn.value.owner == m.bn.value.owner)
  {
  }

  lemma OpKeepsAllGood(s: State, n: Name, op: Op)
    requires AllGood(s) && Enabled(s, On(n, op))
    ensures AllGood(Apply(s, On(n, op)))
  {
    var s' := Apply(s, On(n, op));
    var m' := Effect(s.pass, s.members[n], op);
    assert Good(s'.pass, m') by {
      OpKeepsGood(s.pass, s.members[n], op);
      GoodIgnoresBudget(s.pass, s'.pass, m');
    }
    forall k | k in s.members && k != n
      ensures Good(s'.pass, s.members[k])
    {
      GoodIgnoresBudget(s.pass, s'.pass, s.members[k]);
    }
  }

  lemma OpKeepsOwned(s: State, n: Name, op: Op)
    requires Inv(s) && Enabled(s, On(n, op))
    ensures Owned(Apply(s, On(n, op)))
  {
    var s' := Apply(s, On(n, op));
    OpKeepsOwner(s, n, op);
    forall k | k in s'.members && s'.members[k].bn.Some? && s'.members[k].bn.value.owner.Some?
      ensures PoolOk(s', s'.members[k].bn.value.owner.value)
    {
      if k != n {
        assert s'.members[k] == s.members[k];
        assert PoolOk(s, s.members[k].bn.value.owner.value);
      }
    }
  }

  lemma OpKeepsOwner(s: State, n: Name, op: Op)
    requires AllGood(s) && Owned(s) && Enabled(s, On(n, op))
    ensures var m' := Effect(s.pass, s.members[n], op);
            m'.bn.Some? && m'.bn.value.owner.Some? ==> PoolOk(s, m'.bn.value.owner.value)
  {
    var m := s.members[n];
    assert Good(s.pass, m);
    OpOnOwner(s.pass, m, op);
    if m.bn.Some? && m.bn.value.owner.Some? { assert PoolOk(s, m.bn.value.owner.value); }
  }

  lemma OpKeepsBudgeted(s: State, n: Name, op: Op)
    requires AllGood(s) && Budgeted(s) && Enabled(s, On(n, op))
    ensures Budgeted(Apply(s, On(n, op)))
  {
    if s.pass.Busy? {
      OpOnSlot(s.pass, s.members[n], op, s.pass.pool);
      SlotsAfterOp(s, n, op, s.pass.pool);
    }
  }

  lemma AllotKeepsInv(s: State, limit: int)
    requires Inv(s) && Enabled(s, Allot(limit))
    ensures Inv(Apply(s, Allot(limit)))
  {
    var s' := Apply(s, Allot(limit));
    OccupiedIsSlots(s);
    assert Slots(s', s.pass.pool) == Slots(s, s.pass.pool);
    forall n | n in s.members
      ensures Good(s'.pass, s.members[n])
    {
      GoodIgnoresBudget(s.pass, s'.pass, s.members[n]);
    }
  }

  lemma RollKeepsInv(s: State)
    requires Inv(s) && Enabled(s, Roll)
    ensures Inv(Apply(s, Roll))
  {
    var s' := Apply(s, Roll);
    forall n | n in s.members
      ensures Good(s'.pass, s.members[n])
    {
      assert Good(s.pass, s.members[n]);
    }
  }

  lemma ForgetKeepsGood(pass: Pass, m: Member, drain: Option<Drain>)
    requires Good(pass, m) && (drain == m.drain || drain.None?)
    ensures Good(Idle, m.(local := NO_LOCAL, drain := drain))
  {
  }

  lemma EndKeepsInv(s: State, a: Action)
    requires Inv(s) && Enabled(s, a) && (a.End? || a.Restart?)
    ensures Inv(Apply(s, a))
  {
    var s' := Apply(s, a);
    forall n | n in s.members
      ensures Good(s'.pass, s'.members[n])
    {
      ForgetKeepsGood(s.pass, s.members[n], if a.End? then s.members[n].drain else None);
    }
  }

  lemma PoolStepKeepsInv(s: State, a: Action)
    requires Inv(s) && Enabled(s, a) && (a.DropFinalizer? || a.AddFinalizer? || a.DeletePool?)
    ensures Inv(Apply(s, a))
  {
    var s' := Apply(s, a);
    if a.DropFinalizer? { FinalizerDroppedLast(s); }
    assert forall p | PoolOk(s, p) && (a.DropFinalizer? ==> p != s.pass.pool) :: PoolOk(s', p);
    if s.pass.Busy? { assert Slots(s', s.pass.pool) == Slots(s, s.pass.pool); }
  }

  lemma StepKeepsInv(s: State, a: Action)
    requires Inv(s) && Enabled(s, a)
    ensures Inv(Apply(s, a))
  {
    match a
    case On(n, op) =>
      OpKeepsAllGood(s, n, op);
      OpKeepsOwned(s, n, op);
      OpKeepsBudgeted(s, n, op);
    case Begin(p, image) => BeginKeepsInv(s, p, image);
    case Roll => RollKeepsInv(s);
    case Allot(limit) => AllotKeepsInv(s, limit);
    case Joins(n, node, claim, host) => JoinKeepsInv(s, n, node, claim, host);
    case End => EndKeepsInv(s, a);
    case Restart => EndKeepsInv(s, a);
    case _ => PoolStepKeepsInv(s, a);
  }

  lemma BeginKeepsInv(s: State, p: Pool, image: Ref)
    requires Inv(s) && Enabled(s, Begin(p, image))
    ensures Inv(Apply(s, Begin(p, image)))
  {
    var s' := Apply(s, Begin(p, image));
    forall n | n in s'.members
      ensures Good(s'.pass, s'.members[n])
    {
      assert Good(s.pass, s.members[n]);
    }
  }

  lemma NewcomerGood(pass: Pass, node: Node, claim: ClaimRef, host: Host, found: Baseline)
    requires node.managed != ByOperator
    requires found == Baseline(node.unschedulable, node.annotations, if claim.Found? then claim.claim.annotations else map[])
    ensures Good(pass, Member(None, Some(node), claim, host, None, NO_LOCAL, found))
  {
  }

  /** The condition at a return is exact: what was good stays good if and only if the record that is
      left over agrees with the newcomer. */
  lemma ReturnIsGoodIff(pass: Pass, m: Member, node: Node, claim: ClaimRef, host: Host, found: Baseline)
    requires Good(pass, m) && MayReturn(m) && node.managed != ByOperator && !node.deleting
    requires found == Baseline(node.unschedulable, node.annotations, if claim.Found? then claim.claim.annotations else map[])
    ensures Good(pass, m.(node := Some(node), claim := claim, host := host, found := found)) <==>
            Agrees(Record(m), node, claim)
  {
  }

  lemma ReturnKeepsGood(pass: Pass, m: Member, node: Node, claim: ClaimRef, host: Host, found: Baseline)
    requires Good(pass, m) && MayReturn(m) && node.managed != ByOperator && Agrees(Record(m), node, claim)
    requires found == Baseline(node.unschedulable, node.annotations, if claim.Found? then claim.claim.annotations else map[])
    ensures Good(pass, m.(node := Some(node), claim := claim, host := host, found := found))
  {
  }

  lemma JoinKeepsInv(s: State, n: Name, node: Node, claim: ClaimRef, host: Host)
    requires Inv(s) && Enabled(s, Joins(n, node, claim, host))
    ensures Inv(Apply(s, Joins(n, node, claim, host)))
  {
    var s' := Apply(s, Joins(n, node, claim, host));
    assert AllGood(s') by {
      if n in s.members {
        ReturnKeepsGood(s.pass, s.members[n], node, claim, host, s'.members[n].found);
      } else {
        NewcomerGood(s.pass, node, claim, host, s'.members[n].found);
      }
      assert forall k | k in s'.members && k != n :: s'.members[k] == s.members[k];
    }
    assert Owned(s') && Budgeted(s') by { JoinKeepsRest(s, n, node, claim, host); }
  }

  lemma JoinKeepsRest(s: State, n: Name, node: Node, claim: ClaimRef, host: Host)
    requires Owned(s) && Budgeted(s) && Enabled(s, Joins(n, node, claim, host))
    ensures Owned(Apply(s, Joins(n, node, claim, host))) && Budgeted(Apply(s, Joins(n, node, claim, host)))
  {
    var s' := Apply(s, Joins(n, node, claim, host));
    assert forall k | k in s'.members && s'.members[k].bn.Some? :: k in s.members && s'.members[k].bn == s.members[k].bn;
    forall k | k in s'.members && s'.members[k].bn.Some? && s'.members[k].bn.value.owner.Some?
      ensures PoolOk(s', s'.members[k].bn.value.owner.value)
    {
      assert PoolOk(s, s.members[k].bn.value.owner.value);
    }
    if s.pass.Busy? { assert Slots(s', s.pass.pool) == Slots(s, s.pass.pool); }
  }

  /** The finalizer goes only when no BootcNode is owned by the pool any more. */
  lemma FinalizerDroppedLast(s: State)
    requires Inv(s) && Enabled(s, DropFinalizer)
    ensures forall n | n in s.members && s.members[n].bn.Some? :: s.members[n].bn.value.owner != Some(s.pass.pool)
  {
    forall n | n in s.members && s.members[n].bn.Some?
      ensures s.members[n].bn.value.owner != Some(s.pass.pool)
    {
      assert Good(s.pass, s.members[n]);
    }
  }

  lemma {:induction false} RunKeepsInv(s: State, acts: seq<Action>)
    requires Inv(s) && Legal(s, acts)
    ensures Inv(Replay(s, acts))
    decreases |acts|
  {
    if acts != [] {
      RunKeepsInv(s, acts[..|acts| - 1]);
      StepKeepsInv(Replay(s, acts[..|acts| - 1]), acts[|acts| - 1]);
    }
  }

  /** Where everything may begin: no nodes yet, no pass, any pools. */
  lemma FirstStateIsGood(pools: map<Pool, PoolState>)
    ensures Inv(State(map[], Idle, pools))
  {
  }
}
