/** What the code contributes to progress: a pass that nothing disturbs leaves work only to others. */
module Advance {
  import opened Types
  import opened Slot
  import opened Classify
  import opened Cluster
  import opened Invariants
  import opened Passes
  import opened Runs
  import opened Progress
  import opened Completion

  // ---- Soundness along a pass -----------------------------------------------------------------------

  lemma SpecOpKeepsSound(g: Goal, pass: Pass, m: Member, op: Op)
    requires Good(pass, m) && Sound(g, pass, m) && CodeGuard(pass, m.local, m.drain, op) && ApiGuard(pass, m, op)
    requires op in {Create, Sync, Delete, Unmark, ClearTaint, MarkSlot} || op.Collect?
    ensures Sound(g, pass, Effect(pass, m, op))
  {
  }

  lemma OtherOpKeepsSound(g: Goal, pass: Pass, m: Member, op: Op)
    requires Good(pass, m) && Sound(g, pass, m) && CodeGuard(pass, m.local, m.drain, op) && ApiGuard(pass, m, op)
    requires op !in {Create, Sync, Delete, Unmark, ClearTaint, MarkSlot} && !op.Collect?
    ensures Sound(g, pass, Effect(pass, m, op))
  {
    if op !in {StartDrain, CancelDrain} {
      OtherOpSameWork(pass, m, op);
      SameWorkSameRank(g, pass, m, Effect(pass, m, op));
    }
  }

  lemma StepKeepsSound(g: Goal, s: State, a: Action)
    requires AllGood(s) && AllSound(g, s) && Enabled(s, a) && OfThePass(a)
    ensures AllSound(g, Apply(s, a))
  {
    var s' := Apply(s, a);
    forall n | n in s'.members
      ensures Sound(g, s'.pass, s'.members[n])
    {
      assert Good(s.pass, s.members[n]) && Sound(g, s.pass, s.members[n]);
      if a.On? && a.name == n {
        if a.op in {Create, Sync, Delete, Unmark, ClearTaint, MarkSlot} || a.op.Collect? {
          SpecOpKeepsSound(g, s.pass, s.members[n], a.op);
        } else {
          OtherOpKeepsSound(g, s.pass, s.members[n], a.op);
        }
      }
      SoundIgnoresBudget(g, s.pass, s'.pass, s'.members[n]);
    }
  }

  // ---- The course of an undisturbed pass --------------------------------------------------------------

  /** A pass for the goal that began at `k` with everything prepared, and was not disturbed. */
  ghost predicate Undisturbedly(g: Goal, origin: State, acts: seq<Action>, trail: seq<State>, k: nat) {
    && Inv(origin) && IsRun(origin, acts, trail) && k < |acts| && acts[k] == Begin(g.pool, g.image)
    && Prepared(g, trail[k]) && forall i | k < i < |acts| :: OfThePass(acts[i])
  }

  /** What the pass holds is what is stored, it has listed what is selected, owns only what it has listed,
      and Karpenter holds nothing of that back. */
  predicate OnCourse(g: Goal, m: Member) {
    && Exact(m) && (m.local.listed <==> Selects(g.pool, m)) && (m.local.own.Some? ==> m.local.listed)
    && (m.local.listed ==> Calm(m))
  }

  predicate PassFor(g: Goal, pass: Pass) {
    pass.Busy? && pass.pool == g.pool && pass.image == g.image && pass.stage != Deleting
  }

  predicate Coursing(g: Goal, s: State) {
    && Inv(s) && AllSound(g, s) && PassFor(g, s.pass) && g.pool in s.pools && s.pools[g.pool].Live?
    && forall n | n in s.members :: OnCourse(g, s.members[n])
  }

  lemma OpKeepsCourse(g: Goal, pass: Pass, m: Member, op: Op)
    requires Good(pass, m) && PassFor(g, pass) && OnCourse(g, m)
    requires CodeGuard(pass, m.local, m.drain, op) && ApiGuard(pass, m, op)
    ensures OnCourse(g, Effect(pass, m, op))
  {
    OpIsCalm(pass, m, op);
  }

  lemma StepKeepsCourse(g: Goal, s: State, a: Action)
    requires Coursing(g, s) && Enabled(s, a) && OfThePass(a)
    ensures Coursing(g, Apply(s, a))
  {
    var s' := Apply(s, a);
    StepKeepsInv(s, a);
    StepKeepsSound(g, s, a);
    forall n | n in s'.members
      ensures OnCourse(g, s'.members[n])
    {
      if a.On? && a.name == n { OpKeepsCourse(g, s.pass, s.members[n], a.op); }
    }
  }

  lemma BeginIsCourse(g: Goal, s: State)
    requires Prepared(g, s)
    ensures Enabled(s, Begin(g.pool, g.image)) && Coursing(g, Apply(s, Begin(g.pool, g.image)))
    ensures Rank(g, Apply(s, Begin(g.pool, g.image))) <= Rank(g, s)
  {
    var s' := Apply(s, Begin(g.pool, g.image));
    StepKeepsInv(s, Begin(g.pool, g.image));
    LocalStepRanks(g, s, Begin(g.pool, g.image));
    forall n | n in s'.members
      ensures OnCourse(g, s'.members[n])
    {
      assert Placed(g, s.members[n]);
    }
  }

  lemma {:induction false} PassKeepsCourse(g: Goal, origin: State, acts: seq<Action>, trail: seq<State>, k: nat, j: nat)
    requires Undisturbedly(g, origin, acts, trail, k) && k < j <= |acts|
    ensures Coursing(g, trail[j])
    decreases j
  {
    assert StepAt(acts, trail, j - 1);
    if j == k + 1 {
      BeginIsCourse(g, trail[k]);
    } else {
      PassKeepsCourse(g, origin, acts, trail, k, j - 1);
      StepKeepsCourse(g, trail[j - 1], acts[j - 1]);
    }
  }

  // ---- It raises no rank --------------------------------------------------------------------------------

  lemma CourseIsCooperative(g: Goal, pass: Pass, m: Member, op: Op)
    requires Good(pass, m) && PassFor(g, pass) && OnCourse(g, m) && !op.Collect?
    requires CodeGuard(pass, m.local, m.drain, op) && ApiGuard(pass, m, op)
    ensures CooperativeOp(g, m, op)
  {
  }

  predicate DrainOver(m: Member) {
    m.drain.Some? && m.drain.value.Finished?
  }

  /** Neither approved nor with a drain whose result could approve. */
  predicate Unapproved(m: Member) {
    m.local.own.Some? && !m.local.own.value.approved && !DrainOver(m)
  }

  lemma OpKeepsUnapproved(g: Goal, pass: Pass, m: Member, op: Op)
    requires Good(pass, m) && PassFor(g, pass) && OnCourse(g, m) && Unapproved(m)
    requires CodeGuard(pass, m.local, m.drain, op) && ApiGuard(pass, m, op)
    ensures Unapproved(Effect(pass, m, op))
  {
  }

  lemma {:induction false} StaysUnapproved(g: Goal, origin: State, acts: seq<Action>, trail: seq<State>, k: nat,
                                           i: nat, j: nat, n: Name)
    requires Undisturbedly(g, origin, acts, trail, k) && k < i <= j <= |acts|
    requires n in trail[i].members && Unapproved(trail[i].members[n])
    ensures n in trail[j].members && Unapproved(trail[j].members[n])
    decreases j
  {
    if i < j {
      StaysUnapproved(g, origin, acts, trail, k, i, j - 1, n);
      PassKeepsCourse(g, origin, acts, trail, k, j - 1);
      assert StepAt(acts, trail, j - 1);
      var s, a := trail[j - 1], acts[j - 1];
      if a.On? && a.name == n { OpKeepsUnapproved(g, s.pass, s.members[n], a.op); }
    }
  }

  /** Where the rollout began, right after membership was in sync, and where it had looked at everything. */
  ghost predicate Points(acts: seq<Action>, trail: seq<State>, k: nat, start: nat, mid: nat) {
    RolledAt(acts, k, start) && start <= mid <= |acts| && |acts| < |trail| && Surveyed(trail[start], trail[mid])
  }

  lemma {:induction false} SyncingBefore(origin: State, acts: seq<Action>, trail: seq<State>, i: nat, j: nat)
    requires IsRun(origin, acts, trail) && i <= j <= |acts| && (forall l | i <= l < j :: OfThePass(acts[l]))
    requires trail[j].pass.Busy? && trail[j].pass.stage == Syncing
    ensures trail[i].pass.Busy? && trail[i].pass.stage == Syncing
    decreases j
  {
    if i < j {
      assert StepAt(acts, trail, j - 1);
      SyncingBefore(origin, acts, trail, i, j - 1);
    }
  }

  /** A result that is thrown away between the two points would be missing at the second. */
  lemma ResultIsUsed(g: Goal, origin: State, acts: seq<Action>, trail: seq<State>, k: nat, start: nat, mid: nat,
                     i: nat, n: Name)
    requires Undisturbedly(g, origin, acts, trail, k) && k < start <= i < mid <= |acts| && Surveyed(trail[start], trail[mid])
    requires acts[i] == On(n, Collect(false)) && n in trail[i].members
    ensures CooperativeOp(g, trail[i].members[n], Collect(false))
  {
    var m := trail[i].members[n];
    assert StepAt(acts, trail, i);
    PassKeepsCourse(g, origin, acts, trail, k, i);
    assert Good(trail[i].pass, m) && OnCourse(g, m);
    if m.drain == Some(Finished(true)) && OwnedBy(m, g.pool) && !m.bn.value.approved {
      SameKeys(origin, acts, trail, start, i);
      SameKeys(origin, acts, trail, start, mid);
      UndisturbedPassIsExact(origin, acts, trail, start, i, n);
      assert SurveyedNode(trail[start].members[n], trail[mid].members[n]);
      assert Unapproved(trail[i + 1].members[n]);
      StaysUnapproved(g, origin, acts, trail, k, i + 1, mid, n);
    }
  }

  lemma CollectIsCooperative(g: Goal, origin: State, acts: seq<Action>, trail: seq<State>, k: nat, start: nat, mid: nat, i: nat)
    requires Undisturbedly(g, origin, acts, trail, k) && Points(acts, trail, k, start, mid) && k < i < |acts|
    requires acts[i].On? && acts[i].op.Collect? && Enabled(trail[i], acts[i])
    ensures CooperativeOp(g, trail[i].members[acts[i].name], acts[i].op)
  {
    var n := acts[i].name;
    if i < start {
      assert StepAt(acts, trail, start - 1);
      SyncingBefore(origin, acts, trail, i, start - 1);
    } else if i < mid {
      if !acts[i].op.approve { ResultIsUsed(g, origin, acts, trail, k, start, mid, i, n); }
    } else {
      SurveyedDrains(origin, acts, trail, start, mid);
      SameKeys(origin, acts, trail, mid, i);
      UndisturbedPassIsExact(origin, acts, trail, mid, i, n);
    }
  }

  lemma PassStepNeverRaises(g: Goal, origin: State, acts: seq<Action>, trail: seq<State>, k: nat, start: nat, mid: nat, i: nat)
    requires Undisturbedly(g, origin, acts, trail, k) && Points(acts, trail, k, start, mid) && k < i < |acts|
    ensures Rank(g, trail[i + 1]) <= Rank(g, trail[i])
  {
    assert StepAt(acts, trail, i);
    PassKeepsCourse(g, origin, acts, trail, k, i);
    var s, a := trail[i], acts[i];
    if a.On? && a.op.Collect? {
      CollectIsCooperative(g, origin, acts, trail, k, start, mid, i);
    } else if a.On? {
      CourseIsCooperative(g, s.pass, s.members[a.name], a.op);
    }
    StepNeverRaises(g, s, a);
  }

  lemma FirstStepNeverRaises(g: Goal, origin: State, acts: seq<Action>, trail: seq<State>, k: nat)
    requires Undisturbedly(g, origin, acts, trail, k)
    ensures Rank(g, trail[k + 1]) <= Rank(g, trail[k])
  {
    assert StepAt(acts, trail, k);
    BeginIsCourse(g, trail[k]);
  }

  /** No step of an undisturbed pass that looked at everything raises the rank. */
  lemma {:induction false} PassNeverRaises(g: Goal, origin: State, acts: seq<Action>, trail: seq<State>,
                                           k: nat, start: nat, mid: nat, j: nat)
    requires Undisturbedly(g, origin, acts, trail, k) && Points(acts, trail, k, start, mid) && k < j <= |acts|
    ensures Rank(g, trail[j]) <= Rank(g, trail[k])
    decreases j
  {
    if j == k + 1 {
      FirstStepNeverRaises(g, origin, acts, trail, k);
    } else {
      PassNeverRaises(g, origin, acts, trail, k, start, mid, j - 1);
      PassStepNeverRaises(g, origin, acts, trail, k, start, mid, j - 1);
    }
  }

  // ---- Freshness at its end ---------------------------------------------------------------------------

  lemma FreshNode(g: Goal, b: State, q: State, n: Name)
    requires n in b.members && n in q.members && Calmly(b.members[n], q.members[n])
    requires OnCourse(g, b.members[n]) && OnCourse(g, q.members[n])
    requires n in OwnMap(q) <==>
             b.members[n].local.listed && (b.members[n].local.own.Some? || b.members[n].bn.None?)
    requires q.members[n].local.own.Some? ==> q.members[n].bn.Some?
    requires q.members[n].drain.Some? ==> q.members[n].drain.value.Running?
    ensures var m := q.members[n];
            && (m.bn.None? ==> !Selects(g.pool, m))
            && (m.local.own.Some? ==>
                  && m.bn == m.local.own && m.node.Some? && (m.drain.Some? ==> m.drain.value.Running?)
                  && (m.local.node.Some? ==> m.local.node == m.node && !Deferred(m.local)))
  {
  }

  lemma PassIsFresh(g: Goal, origin: State, acts: seq<Action>, trail: seq<State>, k: nat)
    requires Undisturbedly(g, origin, acts, trail, k)
    requires var q := trail[|acts|]; Adopted(trail[k + 1], q) && NoDrainFinished(q)
    ensures Fresh(g, trail[|acts|]) && Coursing(g, trail[|acts|])
  {
    var b, q := trail[k + 1], trail[|acts|];
    PassKeepsCourse(g, origin, acts, trail, k, k + 1);
    PassKeepsCourse(g, origin, acts, trail, k, |acts|);
    SameKeys(origin, acts, trail, k + 1, |acts|);
    forall n | n in q.members
      ensures var m := q.members[n];
              && (m.bn.None? ==> !Selects(g.pool, m))
              && (m.local.own.Some? ==>
                    && m.bn == m.local.own && m.node.Some? && (m.drain.Some? ==> m.drain.value.Running?)
                    && (m.local.node.Some? ==> m.local.node == m.node && !Deferred(m.local)))
    {
      UndisturbedPassIsExact(origin, acts, trail, k + 1, |acts|, n);
      assert Good(q.pass, q.members[n]);
      FreshNode(g, b, q, n);
    }
  }

  lemma DrainsCollected(g: Goal, origin: State, acts: seq<Action>, trail: seq<State>, k: nat, start: nat, mid: nat)
    requires Undisturbedly(g, origin, acts, trail, k) && k < start <= mid <= |acts|
    requires Surveyed(trail[start], trail[mid])
    ensures NoDrainFinished(trail[|acts|])
  {
    SurveyedDrains(origin, acts, trail, start, mid);
    DrainsStayUnfinished(origin, acts, trail, mid);
  }

  // ---- What is left to others ---------------------------------------------------------------------------

  ghost predicate SomebodyMoves(g: Goal, s: State) {
    exists n :: n in s.members && Moves(g, s.members[n])
  }

  /** From `s` to `t` no work was added, the rollout can be taken up again, and it is finished or somebody
      else than the controller can do some of the work. */
  ghost predicate Advanced(g: Goal, s: State, t: State) {
    Prepared(g, t) && Rank(g, t) <= Rank(g, s) && (Rank(g, t) == 0 || SomebodyMoves(g, t))
  }

  /** Whoever moves does some of the work, and leaves the rollout as prepared as it was. */
  lemma MoverLowers(g: Goal, s: State, n: Name)
    requires Prepared(g, s) && n in s.members && Moves(g, s.members[n])
    ensures Enabled(s, On(n, Help(g, s.members[n])))
    ensures var t := Apply(s, On(n, Help(g, s.members[n]))); Prepared(g, t) && Rank(g, t) < Rank(g, s)
  {
    var t := HelpingLowers(g, 1, s, n);
  }

  /** Ending the pass takes nothing away. */
  lemma EndOfCourse(g: Goal, q: State)
    requires Coursing(g, q)
    ensures Prepared(g, Apply(q, End)) && Rank(g, Apply(q, End)) <= Rank(g, q)
  {
    forall n | n in q.members
      ensures Placed(g, q.members[n])
    {
      assert Good(q.pass, q.members[n]) && OnCourse(g, q.members[n]);
    }
    EndPrepares(g, q);
  }

  /** A pass that halted, or went through with capacity to hand out. */
  predicate Completed(r: Result) {
    r.Halted? || (r.Done? && r.limit >= 1)
  }

  /** What a pass that did not fail leaves behind. */
  ghost predicate LeftSettled(q: State, r: Result, timeout: int, now: int) {
    || (r.Done? && r.limit >= 1 && Settled(q, r.limit))
    || (r.Halted? && q.pass.Busy? && q.pass.image.Digested? && NothingToFree(q) && Bad(q, timeout, now) != {})
  }

  /** After an undisturbed pass that settled or halted, the rollout has advanced. */
  lemma PassHelps(g: Goal, origin: State, acts: seq<Action>, trail: seq<State>, k: nat, start: nat, mid: nat,
                  r: Result, timeout: int, now: int)
    requires Undisturbedly(g, origin, acts, trail, k) && Points(acts, trail, k, start, mid)
    requires Adopted(trail[k + 1], trail[|acts|]) && RollingTo(g, trail[|acts|])
    requires LeftSettled(trail[|acts|], r, timeout, now)
    ensures Advanced(g, trail[k], Apply(trail[|acts|], End))
  {
    DrainsCollected(g, origin, acts, trail, k, start, mid);
    PassIsFresh(g, origin, acts, trail, k);
    PassNeverRaises(g, origin, acts, trail, k, start, mid, |acts|);
    EndOfCourse(g, trail[|acts|]);
    FreshHelps(g, trail[|acts|], r, timeout, now);
  }

  lemma FreshHelps(g: Goal, q: State, r: Result, timeout: int, now: int)
    requires Inv(q) && AllSound(g, q) && Fresh(g, q) && RollingTo(g, q) && LeftSettled(q, r, timeout, now)
    requires Rank(g, Apply(q, End)) <= Rank(g, q)
    ensures Rank(g, Apply(q, End)) > 0 ==> SomebodyMoves(g, Apply(q, End))
  {
    if Rank(g, Apply(q, End)) > 0 {
      var n;
      if r.Done? { n := SettledPassCanBeHelped(g, q, r.limit); } else { n := HaltedPassCanBeHelped(g, q, timeout, now); }
      EndStillMoves(g, q, n);
    }
  }

  lemma EndStillMoves(g: Goal, q: State, n: Name)
    requires q.pass.Busy? && n in q.members && Moves(g, q.members[n])
    ensures SomebodyMoves(g, Apply(q, End))
  {
    StoredCounts(g, q.members[n]);
    assert Apply(q, End).members[n] == Stored(q.members[n]);
  }

  /** How a pass knows that it was not disturbed: it began after `acts0`, and since then there were only
      its own milestones and no events. */
  lemma RunIsUndisturbed(g: Goal, origin: State, acts0: seq<Action>, trail0: seq<State>, acts: seq<Action>, trail: seq<State>,
                         before: set<nat>, places: set<nat>, limit: Option<int>)
    requires Inv(origin) && IsRun(origin, acts0, trail0) && IsRun(origin, acts, trail)
    requires acts0 <= acts && |acts0| < |acts| && acts[|acts0|] == Begin(g.pool, g.image)
    requires Prepared(g, trail0[|acts0|]) && Undisturbed(acts, |acts0|)
    requires Located(acts, places) && (forall i | i in before :: i <= |acts0|)
    requires Since(acts, before, places, RollsWith(limit))
    ensures Undisturbedly(g, origin, acts, trail, |acts0|)
    ensures trail[|acts0|] == trail0[|acts0|]
    ensures Enabled(trail[|acts0|], acts[|acts0|]) && trail[|acts0| + 1] == Apply(trail[|acts0|], acts[|acts0|])
  {
    SameTrail(origin, acts0, trail0, acts, trail, |acts0|);
    assert StepAt(acts, trail, |acts0|);
    PassStepsSince(acts, |acts0| + 1, before, places, limit);
  }

  /** What a pass reports about its run: where it began and what its milestones were. */
  ghost predicate RunReport(g: Goal, origin: State, acts0: seq<Action>, trail0: seq<State>, acts: seq<Action>, trail: seq<State>,
                            places0: set<nat>, places: set<nat>, limit: Option<int>) {
    && Inv(origin) && IsRun(origin, acts0, trail0) && IsRun(origin, acts, trail)
    && acts0 <= acts && |acts0| < |acts| && acts[|acts0|] == Begin(g.pool, g.image)
    && Located(acts0, places0) && Located(acts, places)
    && Since(acts, places0 + {|acts0|}, places, RollsWith(limit))
  }

  /** What it reports about its end `q`, having begun from `s` as `begun`. */
  ghost predicate EndReport(g: Goal, s: State, begun: State, q: State, r: Result, rivals: set<Pool>, timeout: int, now: int) {
    && Enabled(s, Begin(g.pool, g.image)) && s.pools[g.pool].Live? && begun == Apply(s, Begin(g.pool, g.image))
    && (r.Done? ==> Settled(q, r.limit))
    && (r.Halted? ==> q.pass.Busy? && q.pass.image.Digested? && NothingToFree(q) && Bad(q, timeout, now) != {})
    && (!r.Failed? ==>
          && SamePass(q.pass, begun.pass.(stage := Rolling)) && Adopted(begun, q)
          && rivals == Rivals(begun, begun.members.Keys) && SlotsWithin(Occupied(begun), Occupied(q), r)
          && Reported(r, q, timeout, now))
  }

  lemma ReportGivesMilestones(g: Goal, origin: State, acts0: seq<Action>, trail0: seq<State>, acts: seq<Action>, trail: seq<State>,
                              places0: set<nat>, places: set<nat>, limit: Option<int>)
    requires RunReport(g, origin, acts0, trail0, acts, trail, places0, places, limit)
    ensures Since(acts, places0, places, OfReconcile(g.pool, g.image, limit))
  {
    MilestonesOfPass(acts0, acts, places0, places0 + {|acts0|}, places, g.pool, g.image, limit);
  }

  lemma ReportGivesMembers(g: Goal, origin: State, acts: seq<Action>, trail: seq<State>, s: State, begun: State,
                           r: Result, rivals: set<Pool>, timeout: int, now: int)
    requires Inv(origin) && IsRun(origin, acts, trail) && !r.Failed?
    requires EndReport(g, s, begun, trail[|acts|], r, rivals, timeout, now)
    ensures var q := trail[|acts|];
            && q.pass.Busy? && MembersAre(s, Apply(q, End), g.pool, g.image) && rivals == RivalsOf(s, g.pool)
            && SlotsWithin(Slots(s, g.pool), Slots(Apply(q, End), g.pool), r)
  {
    ReconciledAtEnd(origin, acts, trail, s, g.pool, g.image, r);
  }

  lemma ReportGivesView(g: Goal, origin: State, acts: seq<Action>, trail: seq<State>, s: State, begun: State,
                        r: Result, rivals: set<Pool>, timeout: int, now: int)
    requires Inv(origin) && IsRun(origin, acts, trail) && !r.Failed?
    requires EndReport(g, s, begun, trail[|acts|], r, rivals, timeout, now)
    ensures trail[|acts|].pass.Busy?
    ensures ReportsMembers(r, Apply(trail[|acts|], End), g.pool, g.image, timeout, now)
  {
    RunIsLegal(origin, acts, trail);
    PassIsRolling(g, s, begun, trail[|acts|], r);
    ShownAreMembers(g, trail[|acts|], r, timeout, now);
  }

  lemma PassIsRolling(g: Goal, s: State, begun: State, q: State, r: Result)
    requires Enabled(s, Begin(g.pool, g.image)) && s.pools[g.pool].Live? && begun == Apply(s, Begin(g.pool, g.image))
    requires SamePass(q.pass, begun.pass.(stage := Rolling))
    ensures RollingTo(g, q)
  {
  }

  lemma ShownAreMembers(g: Goal, q: State, r: Result, timeout: int, now: int)
    requires AllGood(q) && RollingTo(g, q) && Reported(r, q, timeout, now)
    ensures ReportsMembers(r, Apply(q, End), g.pool, g.image, timeout, now)
  {
    var u := Apply(q, End);
    forall n
      ensures n in r.view.owned <==> n in u.members && OwnedBy(u.members[n], g.pool)
      ensures n in r.view.owned ==> r.view.owned[n].desired == g.image
    {
      if n in q.members {
        assert Good(q.pass, q.members[n]) && u.members[n].bn == q.members[n].bn;
        assert n in OwnMap(q) <==> OwnedBy(q.members[n], g.pool);
      }
    }
  }

  lemma ReportGivesStatuses(g: Goal, origin: State, acts0: seq<Action>, trail0: seq<State>, acts: seq<Action>, trail: seq<State>,
                            places0: set<nat>, places: set<nat>, limit: Option<int>, s: State, begun: State,
                            r: Result, rivals: set<Pool>, timeout: int, now: int)
    requires RunReport(g, origin, acts0, trail0, acts, trail, places0, places, limit) && !r.Failed?
    requires s == trail0[|acts0|] && Undisturbed(acts, |acts0|)
    requires EndReport(g, s, begun, trail[|acts|], r, rivals, timeout, now)
    ensures trail[|acts|].pass.Busy? && StatusesStored(r.view, Apply(trail[|acts|], End))
  {
    BegunAsReported(g, origin, acts0, trail0, acts, trail, s, begun);
    StepsAsReported(g, origin, acts0, trail0, acts, trail, places0, places, limit);
    StatusesAtEnd(g, origin, acts, trail, |acts0| + 1, s, r.view);
  }

  lemma StepsAsReported(g: Goal, origin: State, acts0: seq<Action>, trail0: seq<State>, acts: seq<Action>, trail: seq<State>,
                        places0: set<nat>, places: set<nat>, limit: Option<int>)
    requires RunReport(g, origin, acts0, trail0, acts, trail, places0, places, limit) && Undisturbed(acts, |acts0|)
    ensures forall i | |acts0| + 1 <= i < |acts| :: OfThePass(acts[i])
  {
    PassStepsSince(acts, |acts0| + 1, places0 + {|acts0|}, places, limit);
  }

  lemma BegunAsReported(g: Goal, origin: State, acts0: seq<Action>, trail0: seq<State>, acts: seq<Action>, trail: seq<State>,
                        s: State, begun: State)
    requires IsRun(origin, acts0, trail0) && IsRun(origin, acts, trail) && acts0 <= acts && |acts0| < |acts|
    requires acts[|acts0|] == Begin(g.pool, g.image) && s == trail0[|acts0|]
    requires Enabled(s, Begin(g.pool, g.image)) && begun == Apply(s, Begin(g.pool, g.image))
    ensures trail[|acts0| + 1] == begun
  {
    SameTrail(origin, acts0, trail0, acts, trail, |acts0|);
    assert StepAt(acts, trail, |acts0|);
  }

  lemma StatusesAtEnd(g: Goal, origin: State, acts: seq<Action>, trail: seq<State>, k: nat, s: State, v: View)
    requires IsRun(origin, acts, trail) && k <= |acts| && (forall i | k <= i < |acts| :: OfThePass(acts[i]))
    requires Enabled(s, Begin(g.pool, g.image)) && trail[k] == Apply(s, Begin(g.pool, g.image))
    requires trail[|acts|].pass.Busy? && SameReports(v.owned, OwnMap(trail[|acts|]))
    ensures StatusesStored(v, Apply(trail[|acts|], End))
  {
    var q := trail[|acts|];
    SameKeys(origin, acts, trail, k, |acts|);
    forall n | n in v.owned && n in q.members && q.members[n].bn.Some?
      ensures v.owned[n].status == q.members[n].bn.value.status
    {
      UndisturbedPassIsExact(origin, acts, trail, k, |acts|, n);
      ListedIsExact(s, g, n);
      StatusIsStored(v, trail[k].members[n], q, n);
    }
  }

  lemma ListedIsExact(s: State, g: Goal, n: Name)
    requires Enabled(s, Begin(g.pool, g.image)) && n in s.members
    ensures Exact(Apply(s, Begin(g.pool, g.image)).members[n])
  {
  }

  lemma StatusIsStored(v: View, m: Member, q: State, n: Name)
    requires n in q.members && Calmly(m, q.members[n]) && Exact(m) && SameReports(v.owned, OwnMap(q)) && n in v.owned
    ensures q.members[n].bn.Some? ==> v.owned[n].status == q.members[n].bn.value.status
  {
    assert n in OwnMap(q);
  }

  lemma RunReportUndisturbed(g: Goal, origin: State, acts0: seq<Action>, trail0: seq<State>, acts: seq<Action>, trail: seq<State>,
                             places0: set<nat>, places: set<nat>, limit: Option<int>, s: State)
    requires RunReport(g, origin, acts0, trail0, acts, trail, places0, places, limit)
    requires s == trail0[|acts0|] && Undisturbed(acts, |acts0|) && Prepared(g, s)
    ensures Undisturbedly(g, origin, acts, trail, |acts0|) && Enabled(s, acts[|acts0|])
    ensures trail[|acts0| + 1] == Apply(s, acts[|acts0|])
  {
    RunIsUndisturbed(g, origin, acts0, trail0, acts, trail, places0 + {|acts0|}, places, limit);
  }

  lemma EndReportHelps(g: Goal, origin: State, acts: seq<Action>, trail: seq<State>, k: nat, start: nat, mid: nat,
                       s: State, begun: State, r: Result, rivals: set<Pool>, timeout: int, now: int)
    requires Undisturbedly(g, origin, acts, trail, k) && begun == trail[k + 1] && Points(acts, trail, k, start, mid)
    requires EndReport(g, s, begun, trail[|acts|], r, rivals, timeout, now) && Completed(r)
    ensures trail[|acts|].pass.Busy? && Advanced(g, trail[k], Apply(trail[|acts|], End))
  {
    SettlesRolling(g, s, begun, trail[|acts|], r, timeout, now);
    PassHelps(g, origin, acts, trail, k, start, mid, r, timeout, now);
  }

  /** A pass that reports to have gone through, was not disturbed and began prepared has advanced. */
  lemma ReportHelps(g: Goal, origin: State, acts0: seq<Action>, trail0: seq<State>, acts: seq<Action>, trail: seq<State>,
                    places0: set<nat>, places: set<nat>, limit: Option<int>, start: nat, mid: nat,
                    s: State, begun: State, r: Result, rivals: set<Pool>, timeout: int, now: int)
    requires RunReport(g, origin, acts0, trail0, acts, trail, places0, places, limit)
    requires s == trail0[|acts0|] && Undisturbed(acts, |acts0|) && Prepared(g, s)
    requires Completed(r) && EndReport(g, s, begun, trail[|acts|], r, rivals, timeout, now)
    requires Points(acts, trail, |acts0|, start, mid)
    ensures trail[|acts|].pass.Busy? && Advanced(g, s, Apply(trail[|acts|], End))
  {
    RunReportUndisturbed(g, origin, acts0, trail0, acts, trail, places0, places, limit, s);
    SameTrail(origin, acts0, trail0, acts, trail, |acts0|);
    EndReportHelps(g, origin, acts, trail, |acts0|, start, mid, s, begun, r, rivals, timeout, now);
  }

  lemma SettlesRolling(g: Goal, s: State, begun: State, q: State, r: Result, timeout: int, now: int)
    requires Enabled(s, Begin(g.pool, g.image)) && begun == Apply(s, Begin(g.pool, g.image)) && Completed(r)
    requires s.pools[g.pool].Live? && SamePass(q.pass, begun.pass.(stage := Rolling))
    requires r.Done? ==> Settled(q, r.limit)
    requires r.Halted? ==> q.pass.Busy? && q.pass.image.Digested? && NothingToFree(q) && Bad(q, timeout, now) != {}
    ensures RollingTo(g, q) && LeftSettled(q, r, timeout, now)
  {
  }
}
