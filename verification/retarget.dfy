/** Why the reboot budget is stated for targets that stay fixed: a drain is not ended when its node is
    retargeted, and may outlive its slot. */
module Retarget {
  import opened Types
  import opened Slot
  import opened Classify
  import opened Cluster
  import opened Invariants
  import opened Runs
  import B = Budget

  /** `n` is the only node of `p`. */
  predicate Alone(s: State, p: Pool, n: Name) {
    forall k | k in s.members && s.members[k].bn.Some? && s.members[k].bn.value.owner == Some(p) :: k == n
  }

  /** A selected, Ready and schedulable Node without a claim, whose BootcNode is not approved. */
  predicate Plain(m: Member, p: Pool, image: Ref) {
    && image.Digested? && m.local == NO_LOCAL
    && m.bn.Some? && m.bn.value.owner == Some(p) && m.bn.value.desired == image && !m.bn.value.approved
    && m.claim.NoRef? && m.node.Some? && p in m.node.value.selectedBy && m.node.value.ready == True
    && !DisruptionActive(m.node.value, m.claim)
  }

  lemma AloneInSync(s: State, p: Pool, n: Name, image: Ref)
    requires Alone(s, p, n) && n in s.members && Plain(s.members[n], p, image)
    ensures InSync(s, p, image)
  {
  }

  lemma StillAlone(s: State, t: State, p: Pool, n: Name)
    requires Alone(s, p, n) && SameElse(s, t, n)
    ensures Alone(t, p, n)
  {
    forall k | k in t.members && t.members[k].bn.Some? && t.members[k].bn.value.owner == Some(p)
      ensures k == n
    {
      assert k != n ==> Stored(t.members[k]) == Stored(s.members[k]);
    }
  }

  // ---- One node through one pass ------------------------------------------------------------------

  predicate Waiting(m: Member, p: Pool, image: Ref) {
    Plain(m, p, image) && m.drain.None? && ClassifyNode(m.bn.value) == Some(Staged) && !HasSlot(m.bn.value)
  }

  function SlottedBn(m: Member): BootcNode
    requires m.bn.Some? && m.node.Some?
  {
    m.bn.value.(annotations := SlotRecord(m.bn.value.annotations, m.node.value, NoRef))
  }

  function MarkedAs(m: Member, p: Pool): Member
    requires m.bn.Some? && m.node.Some?
  {
    m.(bn := Some(SlottedBn(m)), local := Listed(p, false, m).(own := Some(SlottedBn(m))))
  }

  function CordonedAs(m: Member, p: Pool): Member
    requires m.bn.Some? && m.node.Some?
  {
    var node := Some(m.node.value.(unschedulable := true));
    m.(bn := Some(SlottedBn(m)), node := node, local := Listed(p, false, m).(own := Some(SlottedBn(m)), node := node))
  }

  lemma Marks(pass: Pass, m: Member, p: Pool, image: Ref)
    requires Waiting(m, p, image) && pass == Busy(p, image, Rolling, 1, 1)
    ensures Guard(pass, Listing(m, p), MarkSlot) && Effect(pass, Listing(m, p), MarkSlot) == MarkedAs(m, p)
    ensures PassAfter(pass, Listing(m, p), MarkSlot) == pass.(budget := 0)
  {
  }

  lemma Cordons(pass: Pass, m: Member, p: Pool, image: Ref)
    requires Waiting(m, p, image) && pass == Busy(p, image, Rolling, 0, 1)
    ensures Guard(pass, MarkedAs(m, p), FenceNode) && Effect(pass, MarkedAs(m, p), FenceNode) == CordonedAs(m, p)
    ensures PassAfter(pass, MarkedAs(m, p), FenceNode) == pass
  {
    RecordedOnce(m.bn.value.annotations, m.node.value, NoRef);
  }

  lemma Drains(pass: Pass, m: Member, p: Pool, image: Ref)
    requires Waiting(m, p, image) && pass == Busy(p, image, Rolling, 0, 1)
    ensures Guard(pass, CordonedAs(m, p), StartDrain)
    ensures Effect(pass, CordonedAs(m, p), StartDrain) == CordonedAs(m, p).(drain := Some(Running))
    ensures PassAfter(pass, CordonedAs(m, p), StartDrain) == pass
  {
  }

  lemma RollsWithOne(s: State, p: Pool, n: Name, image: Ref) returns (t: State)
    requires LiveAndIdle(s, p) && Alone(s, p, n) && n in s.members && Waiting(s.members[n], p, image)
    ensures Reached(Anything(), s, t, n, Listing(s.members[n], p)) && t.pass == Busy(p, image, Rolling, 1, 1)
  {
    var any := Anything();
    AloneInSync(s, p, n, image);
    var t0 := Rolls(any, s, p, image, n);
    assert Occupied(t0) == {};
    LeadsStep(any, s, t0, Allot(1));
    t := Apply(t0, Allot(1));
  }

  /** A pass gives the node its slot, cordons it and starts the drain. */
  lemma SlotAndDrain(s: State, p: Pool, n: Name, image: Ref) returns (u: State)
    requires LiveAndIdle(s, p) && Alone(s, p, n) && n in s.members && Waiting(s.members[n], p, image)
    ensures Reached(Anything(), s, u, n, Stored(CordonedAs(s.members[n], p).(drain := Some(Running)))) && u.pass.Idle?
  {
    var m, any := s.members[n], Anything();
    var t1 := RollsWithOne(s, p, n, image);
    Marks(t1.pass, m, p, image);
    StepOn(any, s, t1, n, Listing(m, p), MarkSlot);
    var t2 := Apply(t1, On(n, MarkSlot));
    Cordons(t2.pass, m, p, image);
    StepOn(any, s, t2, n, MarkedAs(m, p), FenceNode);
    var t3 := Apply(t2, On(n, FenceNode));
    Drains(t3.pass, m, p, image);
    StepOn(any, s, t3, n, CordonedAs(m, p), StartDrain);
    u := Closes(any, s, Apply(t3, On(n, StartDrain)), n, CordonedAs(m, p).(drain := Some(Running)));
  }

  lemma Syncs(pass: Pass, m: Member, p: Pool, was: Ref, image: Ref)
    requires Plain(m, p, was) && image.Digested? && image != was && pass == Busy(p, image, Syncing, 0, 0)
    ensures Guard(pass, Listing(m, p), Sync) && PassAfter(pass, Listing(m, p), Sync) == pass
    ensures Effect(pass, Listing(m, p), Sync) == Listing(Aimed(m, p, image), p)
  {
  }

  /** A pass retargets the node; nothing else of it changes. */
  lemma Retargets(s: State, p: Pool, n: Name, was: Ref, image: Ref) returns (t: State)
    requires LiveAndIdle(s, p) && Alone(s, p, n) && n in s.members && Plain(s.members[n], p, was)
    requires image.Digested? && image != was
    ensures Reached(Anything(), s, t, n, Listing(Aimed(s.members[n], p, image), p))
    ensures t.pass == Busy(p, image, Rolling, 0, 0)
  {
    var m, any := s.members[n], Anything();
    var t0 := Opens(any, s, p, image, n);
    Syncs(t0.pass, m, p, was, image);
    StepOn(any, s, t0, n, Listing(m, p), Sync);
    var t1 := Apply(t0, On(n, Sync));
    forall k | k in t1.members && k != n
      ensures t1.members[k].local.own.None?
    {
      assert t1.members[k] == Listing(s.members[k], p);
    }
    assert Enabled(t1, Roll);
    LeadsStep(any, s, t1, Roll);
    t := Apply(t1, Roll);
  }

  predicate Freeable(m: Member, p: Pool, was: Ref, image: Ref) {
    && Plain(m, p, was) && image.Digested? && image != was && HasSlot(m.bn.value)
    && ClassifyNode(m.bn.value.(desired := image)) == Some(UpToDate)
  }

  /** What freeing the slot leaves. */
  predicate Freed(m: Member, m': Member, p: Pool, image: Ref) {
    && m.bn.Some? && Plain(Stored(m'), p, image) && !HasSlot(m'.bn.value)
    && m'.drain == m.drain && m'.host == m.host && m'.bn.value.status == m.bn.value.status
  }

  lemma Frees(pass: Pass, m: Member, p: Pool, was: Ref, image: Ref)
    requires Freeable(m, p, was, image) && pass == Busy(p, image, Rolling, 0, 0)
    ensures var m1 := Listing(Aimed(m, p, image), p);
            && Guard(pass, m1, RestoreNode)
            && var m2 := Effect(pass, m1, RestoreNode);
            && Guard(pass, m2, RestoreClaim) && m2.bn.Some?
            && var m3 := Effect(pass, m2, RestoreClaim);
            && Guard(pass, m3, Unmark) && m3.bn.Some?
            && Freed(m, Effect(pass, m3, Unmark), p, image)
  {
    OthersRemain(m.node.value.taints);
  }

  /** Retargeted to what its host already runs, the node is up to date; the pass frees its slot and
      leaves the drain running. */
  lemma RetargetFrees(s: State, p: Pool, n: Name, was: Ref, image: Ref) returns (u: State)
    requires LiveAndIdle(s, p) && Alone(s, p, n) && n in s.members && Freeable(s.members[n], p, was, image)
    ensures Leads(Anything(), s, u) && u.pass.Idle? && SameElse(s, u, n)
    ensures Freed(s.members[n], u.members[n], p, image) && u.members[n].local == NO_LOCAL
  {
    var m, any := s.members[n], Anything();
    var t := Retargets(s, p, n, was, image);
    var m1 := Listing(Aimed(m, p, image), p);
    Frees(t.pass, m, p, was, image);
    StepOn(any, s, t, n, m1, RestoreNode);
    var t2, m2 := Apply(t, On(n, RestoreNode)), Effect(t.pass, m1, RestoreNode);
    StepOn(any, s, t2, n, m2, RestoreClaim);
    var t3, m3 := Apply(t2, On(n, RestoreClaim)), Effect(t2.pass, m2, RestoreClaim);
    StepOn(any, s, t3, n, m3, Unmark);
    u := Closes(any, s, Apply(t3, On(n, Unmark)), n, Effect(t3.pass, m3, Unmark));
  }

  // ---- From no drain at all to a reboot without a slot --------------------------------------------

  /** A node of `p` waits for its slot to go from `b` to `a`, and later `c` is wanted. */
  predicate Scene(s: State, p: Pool, n: Name, a: Ref, b: Ref, c: Ref) {
    && LiveAndIdle(s, p) && Alone(s, p, n) && n in s.members && Waiting(s.members[n], p, a)
    && b.Digested? && b != a && c.Digested? && c != b
    && ClassifyNode(s.members[n].bn.value.(desired := b)) == Some(UpToDate)
    && !InfoMatchesDigest(s.members[n].host.booted, c.digest)
  }

  lemma RetargetTwice(s: State, p: Pool, n: Name, a: Ref, b: Ref, c: Ref) returns (u: State)
    requires Scene(s, p, n, a, b, c)
    ensures Leads(Anything(), s, u) && LiveAndIdle(u, p) && Alone(u, p, n) && n in u.members
    ensures Plain(u.members[n], p, c) && !HasSlot(u.members[n].bn.value)
    ensures u.members[n].drain == Some(Running) && u.members[n].host == s.members[n].host
  {
    var any := Anything();
    var u1 := SlotAndDrain(s, p, n, a);
    StillAlone(s, u1, p, n);
    var u2 := RetargetFrees(u1, p, n, a, b);
    LeadsTrans(any, s, u1, u2);
    StillAlone(u1, u2, p, n);
    var t := Retargets(u2, p, n, b, c);
    u := Closes(any, u2, t, n, Listing(Aimed(u2.members[n], p, c), p));
    LeadsTrans(any, s, u2, u);
    StillAlone(u2, u, p, n);
  }

  /** Slot and drain for one image; retargeted to the image the host runs, the slot is freed;
      retargeted once more, the drain ends, approves, and the daemon reboots the node: without a slot,
      although the run began with no drain and no approval anywhere. */
  lemma RetargetingBreaksBudget(s: State, p: Pool, n: Name, a: Ref, b: Ref, c: Ref)
    requires Inv(s) && Scene(s, p, n, a, b, c)
    ensures exists u :: Leads(Anything(), s, u) && B.BreaksBudget(map[p := c], u)
  {
    var u := RetargetTwice(s, p, n, a, b, c);
    LeadsKeepsInv(Anything(), s, u);
    AloneInSync(u, p, n, c);
    B.UnlicensedBreaks(map[p := c], u, n, p);
  }

  const NODE := Node(false, map[], [], True, false, Unlabelled, {"p"})

  function Host0(d: Digest): ImageInfo {
    ImageInfo(Unparseable, d)
  }

  /** A cluster of one node, on "b" with "a" staged. */
  function Sample(): State {
    var status := Status(Some(Host0("b")), Some(Host0("a")), Some(Condition(False, ReasonStaged, 0)), false);
    var bn := BootcNode(Some("p"), Digested("os", "a"), false, map[], status);
    var m := Member(Some(bn), Some(NODE), NoRef, Host(Some(Host0("b")), Some(Host0("a")), false), None, NO_LOCAL,
                    Baseline(false, map[], map[]));
    State(map["n" := m], Idle, map["p" := Live])
  }

  lemma SampleIsSuch()
    ensures Inv(Sample()) && B.Start(map["p" := Digested("os", "a")], Sample())
    ensures Sample().members["n"].drain.None?
    ensures Scene(Sample(), "p", "n", Digested("os", "a"), Digested("os", "b"), Digested("os", "c"))
  {
  }
}
