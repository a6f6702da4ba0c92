/** A reconcile and what it says about its pool: conditions, counts, deployed digest and when to come
    back, all computed from what the pass saw. */
module Reports {
  import opened Types
  import opened Cluster
  import opened Passes
  import C = Controller
  import P = PoolStatus
  import Q = Requeue
  import R = RolloutStates

  /** The digest a pass rolls out: the one just resolved, or the one it had before. */
  function Target(pool: P.Pool, r: P.Resolution): Digest
    reads pool
  {
    if r.Resolved? then r.digest else pool.targetDigest
  }

  predicate TagErrorStands(pool: P.Pool, r: P.Resolution)
    reads pool
  {
    r.Failed? || (r.NotDue? && pool.IsDegraded() && pool.degraded.value.reason == P.TagResolutionError)
  }

  /** What the checks of a pass assert, in their order. */
  function Asserted(conflict: bool, ails: bool, halted: bool, invalid: bool): seq<P.DegradedReason> {
    (if conflict then [P.NodeConflict] else [])
    + (if ails then [P.NodeDegraded] else [])
    + (if halted then [P.RolloutHalted] else [])
    + (if invalid then [P.InvalidSpec] else [])
  }

  /** A node of the pool ails. */
  predicate SomeAil(owned: R.Owned, timeout: int, now: int) {
    exists n | n in owned :: P.Ailing(owned[n], timeout, now)
  }

  /** Whether `q` is a reason, given what is the case. */
  predicate Applies(q: P.DegradedReason, tagError: bool, conflict: bool, ails: bool, halted: bool, malformed: bool) {
    match q
    case TagResolutionError => tagError
    case NodeConflict => conflict
    case NodeDegraded => ails
    case RolloutHalted => halted
    case InvalidSpec => malformed && !halted
    case _ => false
  }

  ghost function Applying(tagError: bool, conflict: bool, ails: bool, halted: bool, malformed: bool): set<P.DegradedReason> {
    set q: P.DegradedReason | Applies(q, tagError, conflict, ails, halted, malformed)
  }

  /** The spec of a result is invalid exactly if maxUnavailable is malformed, matters and was looked at. */
  ghost predicate Explained(result: Result, target: Digest, malformed: bool, timeout: int, now: int) {
    && !result.Failed? && Viewed(result.view, timeout, now)
    && (result.Halted? <==> |R.BadSlots(result.view.owned, target, timeout, now)| >= 2)
    && (result.InvalidSpec? <==> malformed && !result.Halted?)
  }

  lemma AssertedApply(tagError: bool, conflict: bool, ails: bool, halted: bool, malformed: bool)
    ensures var asserted := Asserted(conflict, ails, halted, malformed && !halted);
            && P.Among(asserted) + (if tagError then {P.TagResolutionError} else {})
               == Applying(tagError, conflict, ails, halted, malformed)
            && (forall q | q in asserted :: q in {P.NodeConflict, P.NodeDegraded, P.RolloutHalted, P.InvalidSpec})
  {
    var asserted := Asserted(conflict, ails, halted, malformed && !halted);
    forall q
      ensures q in asserted <==> Applies(q, false, conflict, ails, halted, malformed)
    {
    }
  }

  /** The reason that shows, from what is the case; Healthy if there is none. */
  function Headline(tagError: bool, conflict: bool, ails: bool, halted: bool, malformed: bool): P.DegradedReason {
    if tagError then P.TagResolutionError
    else if malformed && !halted then P.InvalidSpec
    else if halted then P.RolloutHalted
    else if conflict then P.NodeConflict
    else if ails then P.NodeDegraded
    else P.Healthy
  }

  lemma HeadlineIsForemost(tagError: bool, conflict: bool, ails: bool, halted: bool, malformed: bool)
    ensures var reasons := Applying(tagError, conflict, ails, halted, malformed);
            var reason := Headline(tagError, conflict, ails, halted, malformed);
            P.Foremost(reasons) == reason && (reasons != {} <==> reason != P.Healthy)
  {
    var reasons := Applying(tagError, conflict, ails, halted, malformed);
    var reason := Headline(tagError, conflict, ails, halted, malformed);
    assert reason != P.Healthy ==> reason in reasons;
  }

  /** The Degraded condition says which reason comes first of those there are; without any, there is none. */
  ghost predicate Judged(pool: P.Pool, tagError: bool, rivals: set<Pool>, owned: R.Owned, malformed: bool,
                         timeout: int, now: int)
    reads pool
  {
    var halted := |R.BadSlots(owned, pool.targetDigest, timeout, now)| >= 2;
    var reason := Headline(tagError, rivals != {}, SomeAil(owned, timeout, now), halted, malformed);
    && (pool.IsDegraded() <==> reason != P.Healthy)
    && (pool.IsDegraded() ==> pool.degraded.value.reason == reason)
  }

  /** Counts, UpToDate and the deployed digest say of `owned` what is the case. */
  ghost predicate Counted(pool: P.Pool, owned: R.Owned, deployed: Digest, paused: bool, timeout: int, now: int)
    reads pool
  {
    var updated := P.AllOnTarget(owned, pool.targetDigest) || (|owned| > P.MAX_INT32 && |P.Updated(owned)| >= P.MAX_INT32);
    && pool.nodeCount == P.ClampCount(|owned|) && pool.updatedCount == P.ClampCount(|P.Updated(owned)|)
    && pool.updatingCount == P.ClampCount(|P.OnTheWayNames(owned, timeout, now)|)
    && pool.degradedCount == P.ClampCount(|P.AilingNames(owned, timeout, now)|)
    && pool.upToDate == Some(if updated then P.AllNodesUpdated else if paused then P.Paused else P.RolloutInProgress)
    && pool.deployedDigest == (if updated then pool.targetDigest else deployed)
  }

  lemma AilsIffSomeAil(v: View, timeout: int, now: int)
    requires Viewed(v, timeout, now)
    ensures v.buckets.degraded != [] <==> SomeAil(v.owned, timeout, now)
  {
    var names := P.AilingNames(v.owned, timeout, now);
    if v.buckets.degraded != [] {
      var n :| n in names;
    } else {
      assert names == {};
      assert forall n | n in v.owned :: n !in names;
    }
  }

  /** Judges the pool by what a pass found. */
  method JudgeResult(pool: P.Pool, r: P.Resolution, result: Result, rivals: set<Pool>,
                     ghost malformed: bool, ghost timeout: int, ghost now: int)
    requires pool.Valid() && Explained(result, Target(pool, r), malformed, timeout, now)
    modifies pool`degraded, pool`targetDigest
    ensures pool.Valid() && pool.targetDigest == old(Target(pool, r))
    ensures Judged(pool, old(TagErrorStands(pool, r)), rivals, result.view.owned, malformed, timeout, now)
  {
    var conflict, ails := rivals != {}, result.view.buckets.degraded != [];
    AilsIffSomeAil(result.view, timeout, now);
    AssertedApply(TagErrorStands(pool, r), conflict, ails, result.Halted?, malformed);
    HeadlineIsForemost(TagErrorStands(pool, r), conflict, ails, result.Halted?, malformed);
    pool.Judge(r, Asserted(conflict, ails, result.Halted?, result.InvalidSpec?));
  }

  /** What a pass that went through or halted leaves: counts, marked drains, warnings, and when to come
      back: at the next tag resolution, drain that could stall, reboot that could time out, or poll of
      Karpenter. */
  ghost predicate Concluded(pool: P.Pool, drains: Q.Drains, before: Q.Drains, v: View, deployed: Digest, paused: bool,
                            timeout: int, now: int, resolve: nat, poll: nat, requeue: int, warned: set<Name>)
    reads pool
  {
    && Counted(pool, v.owned, deployed, paused, timeout, now)
    && drains == Q.Marked(before, now) && warned == Q.Warned(before, v.owned.Keys, now)
    && Q.LeastPositive(requeue, ({resolve} + Q.TimeToStall(before, now)) + (Q.Deadlines(v.owned, timeout, now) + {poll}))
  }

  method Conclude(pool: P.Pool, table: Q.Table, v: View, paused: bool, resolve: nat, poll: nat, ghost timeout: int, now: int)
    returns (requeue: int, warned: set<Name>)
    requires pool.Valid() && Viewed(v, timeout, now) && P.Aimed(v.owned, pool.targetDigest)
    modifies pool, table
    ensures pool.Valid() && pool.targetDigest == old(pool.targetDigest) && pool.degraded == old(pool.degraded)
    ensures Concluded(pool, table.drains, old(table.drains), v, old(pool.deployedDigest), paused, timeout, now,
                      resolve, poll, requeue, warned)
  {
    var next;
    next, warned := table.RecordDrainStalls(v.owned.Keys, now);
    pool.SyncPoolStatus(v.buckets, paused, v.owned, timeout, now);
    Q.RequeueIsEarliest(resolve, poll, old(table.drains), next, v.owned, timeout, now, v.wake);
    requeue := Q.EarlierRequeue(Q.EarlierRequeue(resolve, next), Q.EarlierRequeue(v.wake, poll));
  }

  /** The first tag resolution has not succeeded yet. */
  predicate Undigested(c: C.Operator, pool: P.Pool, p: Pool, r: P.Resolution)
    reads c, pool
  {
    p in c.s.pools && c.s.pools[p].Live? && Target(pool, r) == ""
  }

  lemma OutcomeIsExplained(result: Result, s: State, p: Pool, image: Ref, malformed: bool, timeout: int, now: int)
    requires ReportsMembers(result, s, p, image, timeout, now)
    requires result.InvalidSpec? <==> malformed && !result.Halted?
    ensures Explained(result, image.digest, malformed, timeout, now) && P.Aimed(result.view.owned, image.digest)
  {
  }

  /** Writes the status of a pool `p` from the result of its pass, which left the cluster as `s`. */
  method Report(pool: P.Pool, table: Q.Table, r: P.Resolution, result: Result, rivals: set<Pool>,
                paused: bool, ghost malformed: bool, ghost timeout: int, now: int, resolve: nat, poll: nat,
                ghost s: State, ghost p: Pool, ghost repo: string)
    returns (requeue: int, warned: set<Name>)
    requires pool.Valid() && ReportsMembers(result, s, p, Digested(repo, Target(pool, r)), timeout, now)
    requires result.InvalidSpec? <==> malformed && !result.Halted?
    modifies pool, table
    ensures pool.Valid() && pool.targetDigest == old(Target(pool, r))
    ensures Judged(pool, old(TagErrorStands(pool, r)), rivals, result.view.owned, malformed, timeout, now)
    ensures result.InvalidSpec? ==> table.drains == old(table.drains) && requeue == 0 && warned == {}
    ensures !result.InvalidSpec? ==>
              Concluded(pool, table.drains, old(table.drains), result.view, old(pool.deployedDigest), paused, timeout, now,
                        resolve, poll, requeue, warned)
  {
    requeue, warned := 0, {};
    OutcomeIsExplained(result, s, p, Digested(repo, Target(pool, r)), malformed, timeout, now);
    JudgeResult(pool, r, result, rivals, malformed, timeout, now);
    if result.InvalidSpec? { return; }
    requeue, warned := Conclude(pool, table, result.view, paused, resolve, poll, timeout, now);
  }

  /** Writes it if there is a result to write it from. */
  method ReportOutcome(pool: P.Pool, table: Q.Table, r: P.Resolution, o: Outcome,
                       paused: bool, ghost malformed: bool, ghost timeout: int, now: int, resolve: nat, poll: nat,
                       ghost s: State, ghost p: Pool, ghost repo: string)
    returns (requeue: int, warned: set<Name>)
    requires pool.Valid()
    requires o.Rolled? && !o.result.Failed? ==>
               && ReportsMembers(o.result, s, p, Digested(repo, Target(pool, r)), timeout, now)
               && (o.result.InvalidSpec? <==> malformed && !o.result.Halted?)
    modifies pool, table
    ensures pool.Valid()
    ensures !o.Rolled? || o.result.Failed? ==> unchanged(pool) && unchanged(table) && requeue == 0 && warned == {}
    ensures o.Rolled? && !o.result.Failed? ==>
              && pool.targetDigest == old(Target(pool, r))
              && Judged(pool, old(TagErrorStands(pool, r)), o.rivals, o.result.view.owned, malformed, timeout, now)
    ensures o.Rolled? && (o.result.Done? || o.result.Halted?) ==>
              Concluded(pool, table.drains, old(table.drains), o.result.view, old(pool.deployedDigest), paused, timeout, now,
                        resolve, poll, requeue, warned)
  {
    requeue, warned := 0, {};
    if o.Rolled? && !o.result.Failed? {
      requeue, warned := Report(pool, table, r, o.result, o.rivals, paused, malformed, timeout, now, resolve, poll, s, p, repo);
    }
  }

  /** One reconcile, as far as its result explains the status. */
  method ReconcileOnce(c: C.Operator, p: Pool, image: Ref, paused: bool, max: R.MaxUnavailable, timeout: int, now: int)
    returns (o: Outcome)
    requires c.Valid() && c.s.pass.Idle? && image.Digested?
    modifies c
    ensures c.Valid() && c.s.pass.Idle? && old(c.acts) <= c.acts
    ensures p in old(c.s).pools && old(c.s).pools[p].NoFinalizer? ==>
              FinalizerCame(old(c.s), c.s, p, o, c.faults - old(c.faults))
    ensures o.Rolled? && !o.result.Failed? ==>
              && ReportsMembers(o.result, c.s, p, image, timeout, now) && o.rivals == RivalsOf(old(c.s), p)
              && (Undisturbed(c.acts, |old(c.acts)|) ==> StatusesStored(o.result.view, c.s))
              && (o.result.InvalidSpec? <==> !paused && max.Malformed? && !o.result.Halted?)
  {
    o := c.Reconcile(p, image, paused, max, timeout, now, false);
  }

  /** Without a digest only the tag error is reported. */
  method HoldBack(pool: P.Pool, r: P.Resolution)
    requires pool.Valid()
    modifies pool
    ensures pool.Valid() && pool.targetDigest == old(Target(pool, r))
    ensures r.Failed? ==> pool.IsDegraded() && pool.degraded.value.reason == P.TagResolutionError
    ensures pool.IsDegraded() ==> pool.degraded.value.reason != P.SecretError && (r.Failed? || pool.degraded == old(pool.degraded))
  {
    pool.ClearDegraded(P.SecretError);
    pool.ResolveTarget(r);
  }

  method ReconcileDigested(c: C.Operator, pool: P.Pool, table: Q.Table, p: Pool, repo: string, r: P.Resolution,
                           paused: bool, max: R.MaxUnavailable, timeout: int, now: int, resolve: nat, poll: nat)
    returns (o: Outcome, requeue: int, warned: set<Name>)
    requires c.Valid() && c.s.pass.Idle? && pool.Valid()
    modifies c, pool, table
    ensures c.Valid() && c.s.pass.Idle? && old(c.acts) <= c.acts && pool.Valid()
    ensures p in old(c.s).pools && old(c.s).pools[p].NoFinalizer? ==>
              FinalizerCame(old(c.s), c.s, p, o, c.faults - old(c.faults))
    ensures !o.Rolled? || o.result.Failed? ==> unchanged(pool) && unchanged(table) && requeue == 0 && warned == {}
    ensures o.Rolled? && !o.result.Failed? ==>
              && pool.targetDigest == old(Target(pool, r))
              && ReportsMembers(o.result, c.s, p, Digested(repo, pool.targetDigest), timeout, now)
              && (Undisturbed(c.acts, |old(c.acts)|) ==> StatusesStored(o.result.view, c.s))
              && Judged(pool, old(TagErrorStands(pool, r)), RivalsOf(old(c.s), p), o.result.view.owned,
                        !paused && max.Malformed?, timeout, now)
    ensures o.Rolled? && (o.result.Done? || o.result.Halted?) ==>
              Concluded(pool, table.drains, old(table.drains), o.result.view, old(pool.deployedDigest), paused, timeout, now,
                        resolve, poll, requeue, warned)
  {
    o := ReconcileOnce(c, p, Digested(repo, Target(pool, r)), paused, max, timeout, now);
    requeue, warned := ReportOutcome(pool, table, r, o, paused, !paused && max.Malformed?, timeout, now,
                                     resolve, poll, c.s, p, repo);
  }

  /** One reconcile with its status, which is written once, at the end: a pass that fails, a deletion or a
      first finalizer writes none, and without a digest nothing is rolled out. What a pass writes is about
      exactly the members it leaves, and if nothing else happened meanwhile, about their statuses as they
      are. */
  method ReconcileAndReport(c: C.Operator, pool: P.Pool, table: Q.Table, p: Pool, repo: string, r: P.Resolution,
                            paused: bool, max: R.MaxUnavailable, timeout: int, now: int, resolve: nat, poll: nat)
    returns (o: Outcome, requeue: int, warned: set<Name>)
    requires c.Valid() && c.s.pass.Idle? && pool.Valid()
    modifies c, pool, table
    ensures c.Valid() && c.s.pass.Idle? && old(c.acts) <= c.acts && pool.Valid()
    ensures old(Undigested(c, pool, p, r)) ==>
              && o == Nothing && unchanged(c) && unchanged(table) && requeue == resolve && warned == {}
              && (r.Failed? ==> pool.IsDegraded() && pool.degraded.value.reason == P.TagResolutionError)
    ensures p in old(c.s).pools && old(c.s).pools[p].NoFinalizer? ==>
              FinalizerCame(old(c.s), c.s, p, o, c.faults - old(c.faults))
    ensures old(!Undigested(c, pool, p, r)) && (!o.Rolled? || o.result.Failed?) ==>
              unchanged(pool) && unchanged(table) && requeue == 0 && warned == {}
    ensures o.Rolled? && !o.result.Failed? ==>
              && pool.targetDigest == old(Target(pool, r))
              && ReportsMembers(o.result, c.s, p, Digested(repo, pool.targetDigest), timeout, now)
              && (Undisturbed(c.acts, |old(c.acts)|) ==> StatusesStored(o.result.view, c.s))
              && Judged(pool, old(TagErrorStands(pool, r)), RivalsOf(old(c.s), p), o.result.view.owned,
                        !paused && max.Malformed?, timeout, now)
    ensures o.Rolled? && (o.result.Done? || o.result.Halted?) ==>
              Concluded(pool, table.drains, old(table.drains), o.result.view, old(pool.deployedDigest), paused, timeout, now,
                        resolve, poll, requeue, warned)
  {
    if Undigested(c, pool, p, r) {
      HoldBack(pool, r);
      return Nothing, resolve, {};
    }
    o, requeue, warned := ReconcileDigested(c, pool, table, p, repo, r, paused, max, timeout, now, resolve, poll);
  }
}
