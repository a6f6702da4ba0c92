/** Every unfinished state can go on, and so every rollout can be completed: from each idle state of a
    live pool whose nodes stay selected and undisturbed by Karpenter there is a cooperative run that
    lowers the rank, and hence one that ends with nothing left to do. */
module Completion {
  import opened Types
  import opened Slot
  import opened Classify
  import opened Cluster
  import opened Invariants
  import opened Runs
  import opened Passes
  import opened Progress
  import S = Safety

  /** Cooperative steps; a pass that draws a budget draws it from `limit`. */
  function Helping(g: Goal, limit: int): Allowed {
    (s: State, a: Action) => Cooperative(g, s, a) && (a.Allot? ==> a.limit == limit)
  }

  /** Owned nodes are selected, and Karpenter holds no selected one back. */
  predicate Placed(g: Goal, m: Member) {
    && (OwnedBy(m, g.pool) ==> Selects(g.pool, m))
    && (Selects(g.pool, m) ==> !DisruptionActive(m.node.value, m.claim))
  }

  predicate Prepared(g: Goal, s: State) {
    Inv(s) && AllSound(g, s) && LiveAndIdle(s, g.pool) && forall n | n in s.members :: Placed(g, s.members[n])
  }

  ghost predicate Lowered(g: Goal, limit: int, s: State, t: State) {
    Leads(Helping(g, limit), s, t) && Prepared(g, t) && Rank(g, t) < Rank(g, s)
  }

  // ---- From one node to the cluster ---------------------------------------------------------------

  lemma HelpingIsCooperative(g: Goal, limit: int, s: State, acts: seq<Action>, t: State)
    requires Run(Helping(g, limit), s, acts, t)
    ensures CooperativeRun(g, s, acts)
  {
    forall k | 0 <= k < |acts|
      ensures Cooperative(g, S.At(s, acts, k), acts[k])
    {
      assert AllowedAt(Helping(g, limit), s, acts, k);
    }
  }

  lemma LeadsKeepsSound(g: Goal, limit: int, s: State, t: State)
    requires Leads(Helping(g, limit), s, t) && Inv(s) && AllSound(g, s)
    ensures Inv(t) && AllSound(g, t) && Rank(g, t) <= Rank(g, s)
  {
    var acts :| Run(Helping(g, limit), s, acts, t);
    HelpingIsCooperative(g, limit, s, acts, t);
    RunKeepsInv(s, acts);
    HelpIsBounded(g, s, acts);
  }

  lemma StoredCounts(g: Goal, m: Member)
    ensures NodeRank(g, Stored(m)) == NodeRank(g, m) && (Placed(g, Stored(m)) <==> Placed(g, m))
  {
  }

  /** Work on one node that lowers its rank lowers the rank. */
  lemma OneNodeLowers(g: Goal, limit: int, s: State, t: State, n: Name, m: Member)
    requires Prepared(g, s) && Reached(Helping(g, limit), s, t, n, m) && t.pass.Idle?
    requires NodeRank(g, m) < NodeRank(g, s.members[n]) && Placed(g, m)
    ensures Lowered(g, limit, s, t)
  {
    LeadsKeepsSound(g, limit, s, t);
    forall k | k in t.members
      ensures Placed(g, t.members[k]) && NodeRank(g, t.members[k]) <= NodeRank(g, s.members[k])
    {
      if k != n {
        assert Stored(t.members[k]) == Stored(s.members[k]);
        StoredCounts(g, t.members[k]);
        StoredCounts(g, s.members[k]);
      }
    }
    RankFromNodes(g, s, t);
  }

  lemma StepHelps(g: Goal, limit: int, s: State, t: State, n: Name, m: Member, op: Op)
    requires Reached(Helping(g, limit), s, t, n, m) && CooperativeOp(g, m, op)
    requires Guard(t.pass, m, op) && (m.local.own.Some? ==> m.bn.Some?)
    ensures Enabled(t, On(n, op))
    ensures var t' := Apply(t, On(n, op));
            Reached(Helping(g, limit), s, t', n, Effect(t.pass, m, op)) && t'.pass == PassAfter(t.pass, m, op)
  {
    StepOn(Helping(g, limit), s, t, n, m, op);
  }

  /** The pass ends. */
  lemma EndLowers(g: Goal, limit: int, s: State, t: State, n: Name, m: Member) returns (u: State)
    requires Prepared(g, s) && Reached(Helping(g, limit), s, t, n, m) && t.pass.Busy?
    requires NodeRank(g, m) < NodeRank(g, s.members[n]) && Placed(g, m)
    ensures Lowered(g, limit, s, u)
  {
    u := Closes(Helping(g, limit), s, t, n, m);
    StoredCounts(g, m);
    OneNodeLowers(g, limit, s, u, n, Stored(m));
  }

  // ---- Joining and retargeting ----------------------------------------------------------------------

  lemma JoinChain(g: Goal, pass: Pass, m: Member, op: Op)
    requires m.local == NO_LOCAL && Placed(g, m) && Selects(g.pool, m) && g.image.Digested?
    requires pass == Busy(g.pool, g.image, Syncing, 0, 0)
    requires if op == Create then m.bn.None? else op == Sync && OwnedBy(m, g.pool) && m.bn.value.desired != g.image
    ensures var m0 := Listing(m, g.pool);
            && Guard(pass, m0, op) && CooperativeOp(g, m0, op) && (m0.local.own.Some? ==> m0.bn.Some?)
            && NodeRank(g, Effect(pass, m0, op)) < NodeRank(g, m) && Placed(g, Effect(pass, m0, op))
  {
  }

  lemma AdoptingLowers(g: Goal, limit: int, s: State, n: Name) returns (t: State)
    requires Prepared(g, s) && n in s.members && s.members[n].bn.None? && Selects(g.pool, s.members[n])
    ensures Lowered(g, limit, s, t)
  {
    var m, help := s.members[n], Helping(g, limit);
    assert Good(s.pass, m) && Sound(g, s.pass, m) && Placed(g, m);
    var b := Opens(help, s, g.pool, g.image, n);
    var m0 := Listing(m, g.pool);
    JoinChain(g, b.pass, m, Create);
    StepHelps(g, limit, s, b, n, m0, Create);
    var m1 := Effect(b.pass, m0, Create);
    t := EndLowers(g, limit, s, Apply(b, On(n, Create)), n, m1);
  }

  lemma SyncingLowers(g: Goal, limit: int, s: State, n: Name) returns (t: State)
    requires Prepared(g, s) && n in s.members && OwnedBy(s.members[n], g.pool) && s.members[n].bn.value.desired != g.image
    ensures Lowered(g, limit, s, t)
  {
    var m, help := s.members[n], Helping(g, limit);
    assert Good(s.pass, m) && Sound(g, s.pass, m) && Placed(g, m);
    var b := Opens(help, s, g.pool, g.image, n);
    var m0 := Listing(m, g.pool);
    JoinChain(g, b.pass, m, Sync);
    StepHelps(g, limit, s, b, n, m0, Sync);
    var m1 := Effect(b.pass, m0, Sync);
    t := EndLowers(g, limit, s, Apply(b, On(n, Sync)), n, m1);
  }

  // ---- What the environment does ----------------------------------------------------------------------

  lemma HelpKeepsPlaced(g: Goal, pass: Pass, m: Member)
    requires Placed(g, m) && Sound(g, pass, m) && Ours(g, m) && m.node.Some? && (m.local.own.Some? ==> m.bn.Some?)
    requires EnvGuard(pass, m, Help(g, m))
    ensures Placed(g, Effect(pass, m, Help(g, m)))
  {
  }

  lemma HelpingLowers(g: Goal, limit: int, s: State, n: Name) returns (t: State)
    requires Prepared(g, s) && n in s.members && Ours(g, s.members[n]) && NodeRank(g, s.members[n]) > 0
    requires !WaitsForController(g, s.members[n])
    ensures s.members[n].node.Some? && Enabled(s, On(n, Help(g, s.members[n])))
    ensures t == Apply(s, On(n, Help(g, s.members[n]))) && Lowered(g, limit, s, t)
  {
    var m, help := s.members[n], Helping(g, limit);
    assert Good(s.pass, m) && Sound(g, s.pass, m) && Placed(g, m);
    HelpLowers(g, s.pass, m);
    HelpKeepsPlaced(g, s.pass, m);
    LeadsNowhere(help, s);
    StepHelps(g, limit, s, s, n, m, Help(g, m));
    t := Apply(s, On(n, Help(g, m)));
    OneNodeLowers(g, limit, s, t, n, Effect(s.pass, m, Help(g, m)));
  }

  // ---- What a pass does -------------------------------------------------------------------------------

  predicate Steadfast(g: Goal, m: Member) {
    m.local == NO_LOCAL && Ours(g, m) && Placed(g, m) && g.image.Digested?
  }

  predicate RollingPass(g: Goal, pass: Pass) {
    pass.Busy? && pass.pool == g.pool && pass.image == g.image && pass.stage == Rolling
  }

  /** Back on the image, Ready and slotted: the slot goes. */
  lemma FreeingChain(g: Goal, pass: Pass, m: Member)
    requires Steadfast(g, m) && RollingPass(g, pass) && OnGoal(g, m) && WaitsForController(g, m) && HasSlot(m.bn.value)
    ensures var m0 := Listing(m, g.pool);
            && Guard(pass, m0, RestoreNode) && PassAfter(pass, m0, RestoreNode) == pass
            && var m1 := Effect(pass, m0, RestoreNode);
            && Guard(pass, m1, RestoreClaim) && m1.bn.Some? && PassAfter(pass, m1, RestoreClaim) == pass
            && var m2 := Effect(pass, m1, RestoreClaim);
            && Guard(pass, m2, Unmark) && m2.bn.Some?
            && var m3 := Effect(pass, m2, Unmark);
            && NodeRank(g, m3) == 0 && Placed(g, m3)
  {
    OthersRemain(m.node.value.taints);
  }

  lemma FreeingLowers(g: Goal, limit: int, s: State, n: Name) returns (t: State)
    requires Prepared(g, s) && InSync(s, g.pool, g.image) && n in s.members && Steadfast(g, s.members[n])
    requires var m := s.members[n]; OnGoal(g, m) && WaitsForController(g, m) && HasSlot(m.bn.value)
    ensures Lowered(g, limit, s, t)
  {
    var m, help := s.members[n], Helping(g, limit);
    var t0 := Rolls(help, s, g.pool, g.image, n);
    var m0 := Listing(m, g.pool);
    FreeingChain(g, t0.pass, m);
    StepHelps(g, limit, s, t0, n, m0, RestoreNode);
    var t1, m1 := Apply(t0, On(n, RestoreNode)), Effect(t0.pass, m0, RestoreNode);
    StepHelps(g, limit, s, t1, n, m1, RestoreClaim);
    var t2, m2 := Apply(t1, On(n, RestoreClaim)), Effect(t0.pass, m1, RestoreClaim);
    StepHelps(g, limit, s, t2, n, m2, Unmark);
    var m3 := Effect(t0.pass, m2, Unmark);
    t := EndLowers(g, limit, s, Apply(t2, On(n, Unmark)), n, m3);
  }

  /** Back on the image and Ready, with only the startup taint on record: the taint goes. */
  lemma TaintChain(g: Goal, pass: Pass, m: Member)
    requires Steadfast(g, m) && RollingPass(g, pass) && OnGoal(g, m) && WaitsForController(g, m) && !HasSlot(m.bn.value)
    ensures var m0 := Listing(m, g.pool);
            && Guard(pass, m0, DropTaint) && PassAfter(pass, m0, DropTaint) == pass
            && var m1 := Effect(pass, m0, DropTaint);
            && Guard(pass, m1, ClearTaint) && m1.bn.Some?
            && var m2 := Effect(pass, m1, ClearTaint);
            && NodeRank(g, m2) == 0 && Placed(g, m2)
  {
    OthersRemain(m.node.value.taints);
  }

  lemma TaintLowers(g: Goal, limit: int, s: State, n: Name) returns (t: State)
    requires Prepared(g, s) && InSync(s, g.pool, g.image) && n in s.members && Steadfast(g, s.members[n])
    requires var m := s.members[n]; OnGoal(g, m) && WaitsForController(g, m) && !HasSlot(m.bn.value)
    ensures Lowered(g, limit, s, t)
  {
    var m, help := s.members[n], Helping(g, limit);
    var t0 := Rolls(help, s, g.pool, g.image, n);
    var m0 := Listing(m, g.pool);
    TaintChain(g, t0.pass, m);
    StepHelps(g, limit, s, t0, n, m0, DropTaint);
    var t1, m1 := Apply(t0, On(n, DropTaint)), Effect(t0.pass, m0, DropTaint);
    StepHelps(g, limit, s, t1, n, m1, ClearTaint);
    var m2 := Effect(t0.pass, m1, ClearTaint);
    t := EndLowers(g, limit, s, Apply(t1, On(n, ClearTaint)), n, m2);
  }

  /** A drain result is collected, or a drain is started. */
  function Next(m: Member): Op {
    if m.drain.Some? && m.drain.value.Finished? then Collect(m.drain.value.ok) else StartDrain
  }

  lemma DrainChain(g: Goal, pass: Pass, m: Member)
    requires Steadfast(g, m) && RollingPass(g, pass) && !OnGoal(g, m) && WaitsForController(g, m)
    requires HasSlot(m.bn.value) || m.drain.Some?
    ensures var m0 := Listing(m, g.pool);
            && Guard(pass, m0, Next(m)) && CooperativeOp(g, m0, Next(m))
            && var m1 := Effect(pass, m0, Next(m));
            && NodeRank(g, m1) < NodeRank(g, m) && Placed(g, m1)
  {
  }

  lemma DrainLowers(g: Goal, limit: int, s: State, n: Name) returns (t: State)
    requires Prepared(g, s) && InSync(s, g.pool, g.image) && n in s.members && Steadfast(g, s.members[n])
    requires var m := s.members[n];
             !OnGoal(g, m) && WaitsForController(g, m) && (HasSlot(m.bn.value) || m.drain.Some?)
    ensures Lowered(g, limit, s, t)
  {
    var m, help := s.members[n], Helping(g, limit);
    var t0 := Rolls(help, s, g.pool, g.image, n);
    var m0 := Listing(m, g.pool);
    DrainChain(g, t0.pass, m);
    StepHelps(g, limit, s, t0, n, m0, Next(m));
    var m1 := Effect(t0.pass, m0, Next(m));
    t := EndLowers(g, limit, s, Apply(t0, On(n, Next(m))), n, m1);
  }

  /** With capacity left, a waiting node gets a slot. */
  lemma SlotChain(g: Goal, pass: Pass, m: Member)
    requires Steadfast(g, m) && RollingPass(g, pass) && pass.budget > 0 && !OnGoal(g, m) && WaitsForController(g, m)
    requires !HasSlot(m.bn.value)
    ensures var m0 := Listing(m, g.pool);
            && Guard(pass, m0, MarkSlot) && CooperativeOp(g, m0, MarkSlot)
            && var m1 := Effect(pass, m0, MarkSlot);
            && NodeRank(g, m1) < NodeRank(g, m) && Placed(g, m1)
  {
  }

  lemma SlotLowers(g: Goal, limit: int, s: State, n: Name) returns (t: State)
    requires Prepared(g, s) && InSync(s, g.pool, g.image) && n in s.members && Steadfast(g, s.members[n])
    requires var m := s.members[n]; !OnGoal(g, m) && WaitsForController(g, m) && !HasSlot(m.bn.value)
    requires |Slots(s, g.pool)| < limit
    ensures Lowered(g, limit, s, t)
  {
    var m, help := s.members[n], Helping(g, limit);
    var t0 := Rolls(help, s, g.pool, g.image, n);
    LeadsStep(help, s, t0, Allot(limit));
    var t1 := Apply(t0, Allot(limit));
    var m0 := Listing(m, g.pool);
    SlotChain(g, t1.pass, m);
    StepHelps(g, limit, s, t1, n, m0, MarkSlot);
    var m1 := Effect(t1.pass, m0, MarkSlot);
    t := EndLowers(g, limit, s, Apply(t1, On(n, MarkSlot)), n, m1);
  }

  // ---- Every unfinished state -------------------------------------------------------------------------

  /** Every selected node has been adopted and every owned one retargeted. */
  predicate Settling(g: Goal, s: State) {
    forall n | n in s.members ::
      && (s.members[n].bn.None? ==> !Selects(g.pool, s.members[n]))
      && (OwnedBy(s.members[n], g.pool) ==> s.members[n].bn.value.desired == g.image)
  }

  lemma SettlingInSync(g: Goal, s: State)
    requires Prepared(g, s) && Settling(g, s)
    ensures InSync(s, g.pool, g.image)
    ensures forall n | n in s.members && NodeRank(g, s.members[n]) > 0 :: Steadfast(g, s.members[n])
  {
    forall n | n in s.members
      ensures s.members[n].local == NO_LOCAL && Placed(g, s.members[n])
    {
      assert Good(s.pass, s.members[n]);
    }
  }

  /** A node that moves on its own, is freed, or is on its way with a slot needs no capacity. */
  lemma NeedsNoSlot(g: Goal, limit: int, s: State, n: Name) returns (t: State)
    requires Prepared(g, s) && Settling(g, s) && n in s.members && NodeRank(g, s.members[n]) > 0
    requires var m := s.members[n];
             m.bn.Some? && (!WaitsForController(g, m) || OnGoal(g, m) || HasSlot(m.bn.value) || m.drain.Some?)
    ensures Lowered(g, limit, s, t)
  {
    SettlingInSync(g, s);
    var m := s.members[n];
    if !WaitsForController(g, m) {
      t := HelpingLowers(g, limit, s, n);
    } else if OnGoal(g, m) && HasSlot(m.bn.value) {
      t := FreeingLowers(g, limit, s, n);
    } else if OnGoal(g, m) {
      t := TaintLowers(g, limit, s, n);
    } else {
      t := DrainLowers(g, limit, s, n);
    }
  }

  lemma SlotIsWork(g: Goal, s: State, n: Name)
    requires Prepared(g, s) && Settling(g, s) && n in Slots(s, g.pool)
    ensures n in s.members && NodeRank(g, s.members[n]) > 0 && s.members[n].bn.Some? && HasSlot(s.members[n].bn.value)
  {
  }

  lemma SettlingLowers(g: Goal, limit: int, s: State) returns (t: State)
    requires Prepared(g, s) && Settling(g, s) && limit >= 1 && Rank(g, s) > 0
    ensures Lowered(g, limit, s, t)
  {
    var n := HasWork(g, s);
    SettlingInSync(g, s);
    var m := s.members[n];
    if !WaitsForController(g, m) || OnGoal(g, m) || HasSlot(m.bn.value) || m.drain.Some? {
      t := NeedsNoSlot(g, limit, s, n);
    } else if |Slots(s, g.pool)| < limit {
      t := SlotLowers(g, limit, s, n);
    } else {
      var k :| k in Slots(s, g.pool);
      SlotIsWork(g, s, k);
      t := NeedsNoSlot(g, limit, s, k);
    }
  }

  /** Every unfinished state can go on. */
  lemma EveryStateCanGoOn(g: Goal, limit: int, s: State) returns (t: State)
    requires Prepared(g, s) && limit >= 1 && Rank(g, s) > 0
    ensures Lowered(g, limit, s, t)
  {
    if n :| n in s.members && s.members[n].bn.None? && Selects(g.pool, s.members[n]) {
      t := AdoptingLowers(g, limit, s, n);
    } else if n :| n in s.members && OwnedBy(s.members[n], g.pool) && s.members[n].bn.value.desired != g.image {
      t := SyncingLowers(g, limit, s, n);
    } else {
      t := SettlingLowers(g, limit, s);
    }
  }

  lemma EndPrepares(g: Goal, s: State)
    requires Inv(s) && AllSound(g, s) && s.pass.Busy? && g.pool in s.pools && s.pools[g.pool].Live?
    requires forall n | n in s.members :: Placed(g, s.members[n])
    ensures Prepared(g, Apply(s, End)) && Rank(g, Apply(s, End)) <= Rank(g, s)
  {
    StepKeepsInv(s, End);
    StepNeverRaises(g, s, End);
    forall n | n in s.members
      ensures Placed(g, Apply(s, End).members[n])
    {
      StoredCounts(g, s.members[n]);
    }
  }

  /** In the middle of a pass, the pass may end first. */
  lemma BusyStateCanGoOn(g: Goal, limit: int, s: State) returns (t: State)
    requires Inv(s) && AllSound(g, s) && s.pass.Busy? && g.pool in s.pools && s.pools[g.pool].Live?
    requires (forall n | n in s.members :: Placed(g, s.members[n])) && limit >= 1 && Rank(g, s) > 0
    ensures Lowered(g, limit, s, t)
  {
    var help := Helping(g, limit);
    LeadsNowhere(help, s);
    LeadsStep(help, s, s, End);
    var u := Apply(s, End);
    EndPrepares(g, s);
    if Rank(g, u) > 0 {
      t := EveryStateCanGoOn(g, limit, u);
      LeadsTrans(help, s, u, t);
    } else {
      t := u;
    }
  }

  /** A finished rollout: no slot is held, every node runs the image, Nodes and claims are as found,
      and no startup taint is on record. */
  predicate RolledOut(g: Goal, s: State) {
    Slots(s, g.pool) == {} &&
    forall n | n in s.members && OwnedBy(s.members[n], g.pool) ::
      OnGoal(g, s.members[n]) && S.Restored(s.members[n]) && OwnsTaint !in Record(s.members[n])
  }

  lemma NoWorkIsRolledOut(g: Goal, s: State)
    requires Inv(s) && Rank(g, s) == 0
    ensures RolledOut(g, s)
  {
    FinishedMeans(g, s);
    FinishedIsRestored(g, s);
  }

  /** Every rollout can be completed: there is a cooperative run to a state in which every node the pool
      has runs and reports the image, no slot is held, and Nodes and claims are as they were found. */
  lemma {:induction false} RolloutCompletes(g: Goal, limit: int, s: State) returns (t: State)
    requires Prepared(g, s) && limit >= 1
    ensures Leads(Helping(g, limit), s, t) && Prepared(g, t) && Rank(g, t) == 0 && RolledOut(g, t)
    decreases Rank(g, s)
  {
    if Rank(g, s) == 0 {
      t := s;
      LeadsNowhere(Helping(g, limit), s);
      NoWorkIsRolledOut(g, s);
    } else {
      var u := EveryStateCanGoOn(g, limit, s);
      t := RolloutCompletes(g, limit, u);
      LeadsTrans(Helping(g, limit), s, u, t);
    }
  }
}
