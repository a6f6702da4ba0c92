/** The status of a pool: node counts, the deployed digest, and the UpToDate and Degraded conditions. */
module PoolStatus {
  import opened Types
  import opened Classify
  import R = RolloutStates

  const MAX_INT32 := 0x7fff_ffff

  function ClampCount(n: int): (r: int)
    ensures 0 <= r <= MAX_INT32
    ensures n <= 0 ==> r == 0
    ensures 0 <= n <= MAX_INT32 ==> r == n
    ensures n >= MAX_INT32 ==> r == MAX_INT32
    ensures n >= 2147483647 ==> r == 2147483647
    ensures 0 <= n < 2147483647 ==> r == n
  {
    if n < 0 then 0 else if n > MAX_INT32 then MAX_INT32 else n
  }

  // ---- Counting -----------------------------------------------------------------------------

  /** The buckets after reboot timeouts: who timed out has moved from rebooting to degraded. */
  function Timed(b: R.Buckets, owned: R.Owned, timeout: int, now: int): R.Buckets
    requires forall n | n in b.rebooting :: n in owned
  {
    b.(rebooting := R.Expired(owned, b.rebooting, timeout, now, false),
       degraded := b.degraded + R.Expired(owned, b.rebooting, timeout, now, true))
  }

  function Updated(owned: R.Owned): set<Name> {
    set n | n in owned && ClassifyNode(owned[n]) == Some(UpToDate)
  }

  /** Degraded by its own account, or rebooting for too long. */
  predicate Ailing(bn: BootcNode, timeout: int, now: int) {
    ClassifyNode(bn) == Some(Degraded) || (ClassifyNode(bn) == Some(Rebooting) && R.RebootTimedOut(bn, timeout, now))
  }

  function AilingNames(owned: R.Owned, timeout: int, now: int): set<Name> {
    set n | n in owned && Ailing(owned[n], timeout, now)
  }

  /** Neither on the target nor ailing. */
  predicate OnTheWay(bn: BootcNode, timeout: int, now: int) {
    ClassifyNode(bn).Some? && ClassifyNode(bn) != Some(UpToDate) && !Ailing(bn, timeout, now)
  }

  function OnTheWayNames(owned: R.Owned, timeout: int, now: int): set<Name> {
    set n | n in owned && OnTheWay(owned[n], timeout, now)
  }

  function Updating(b: R.Buckets): nat {
    |b.pending| + |b.staging| + |b.staged| + |b.rebooting|
  }

  predicate AllUpdated(owned: R.Owned) {
    forall n | n in owned :: ClassifyNode(owned[n]) == Some(UpToDate)
  }

  lemma {:induction false} DistinctCount(s: seq<Name>, x: set<Name>)
    requires R.Distinct(s) && forall n :: n in s <==> n in x
    ensures |s| == |x|
    decreases |s|
  {
    if s == [] {
      assert x == {};
    } else {
      var k := |s| - 1;
      assert s == s[..k] + [s[k]];
      DistinctCount(s[..k], x - {s[k]});
    }
  }

  /** No node is lost or counted twice, also when timeouts move some of them. */
  lemma TimeoutsConserveNodes(b: R.Buckets, owned: R.Owned, timeout: int, now: int)
    requires R.Classified(b, owned, owned.Keys)
    ensures forall n | n in b.rebooting :: n in owned
    ensures Tallied(Timed(b, owned, timeout, now), owned, timeout, now)
  {
    BucketIs(b, owned, Some(UpToDate));
    BucketIs(b, owned, Some(Pending));
    BucketIs(b, owned, Some(Staging));
    BucketIs(b, owned, Some(Staged));
    BucketIs(b, owned, Some(Rebooting));
    BucketIs(b, owned, Some(Degraded));
    R.ExpiredMembers(owned, b.rebooting, timeout, now, true);
    R.ExpiredMembers(owned, b.rebooting, timeout, now, false);
    assert |owned.Keys| == |owned|;
    DistinctCount(b.upToDate, Updated(owned));
    AilingCount(b.degraded, R.Expired(owned, b.rebooting, timeout, now, true), owned, timeout, now);
    OnTheWayCount(b.pending, b.staging, b.staged, R.Expired(owned, b.rebooting, timeout, now, false), owned, timeout, now);
  }

  /** `s` lists, once each, the nodes that are classified as `state`. */
  ghost predicate Lists(s: seq<Name>, owned: R.Owned, state: Option<NodeState>) {
    R.Distinct(s) && forall n :: n in s <==> n in owned && ClassifyNode(owned[n]) == state
  }

  lemma BucketIs(b: R.Buckets, owned: R.Owned, state: Option<NodeState>)
    requires R.Classified(b, owned, owned.Keys)
    ensures Lists(R.Bucket(b, state), owned, state)
  {
    assert R.Distinct(R.Bucket(b, state));
    forall n
      ensures n in R.Bucket(b, state) <==> n in owned && ClassifyNode(owned[n]) == state
    {
    }
  }

  /** Two lists of different nodes. */
  lemma CountBoth(x: seq<Name>, y: seq<Name>, z: set<Name>)
    requires R.Distinct(x) && R.Distinct(y) && forall n :: !(n in x && n in y)
    requires forall n :: n in x || n in y <==> n in z
    ensures R.Distinct(x + y) && |x| + |y| == |z|
  {
    R.AppendDistinct(x, y);
    DistinctCount(x + y, z);
  }

  lemma AilingCount(degraded: seq<Name>, late: seq<Name>, owned: R.Owned, timeout: int, now: int)
    requires Lists(degraded, owned, Some(Degraded)) && R.Distinct(late)
    requires forall n :: n in late <==>
               n in owned && ClassifyNode(owned[n]) == Some(Rebooting) && R.RebootTimedOut(owned[n], timeout, now)
    ensures |degraded| + |late| == |AilingNames(owned, timeout, now)|
  {
    CountBoth(degraded, late, AilingNames(owned, timeout, now));
  }

  lemma OnTheWayCount(pending: seq<Name>, staging: seq<Name>, staged: seq<Name>, waiting: seq<Name>,
                      owned: R.Owned, timeout: int, now: int)
    requires Lists(pending, owned, Some(Pending)) && Lists(staging, owned, Some(Staging)) && Lists(staged, owned, Some(Staged))
    requires R.Distinct(waiting)
    requires forall n :: n in waiting <==>
               n in owned && ClassifyNode(owned[n]) == Some(Rebooting) && !R.RebootTimedOut(owned[n], timeout, now)
    ensures |pending| + |staging| + |staged| + |waiting| == |OnTheWayNames(owned, timeout, now)|
  {
    var x := set n | n in owned && ClassifyNode(owned[n]) in {Some(Pending), Some(Staging)};
    var y := OnTheWayNames(owned, timeout, now) - x;
    CountBoth(pending, staging, x);
    CountBoth(staged, waiting, y);
    assert OnTheWayNames(owned, timeout, now) == x + y;
  }

  /** Counting is enough: as many updated nodes as nodes means all of them. */
  lemma AllCounted(owned: R.Owned)
    ensures |Updated(owned)| <= |owned|
    ensures |Updated(owned)| == |owned| <==> AllUpdated(owned)
  {
    var rest := owned.Keys - Updated(owned);
    assert owned.Keys == Updated(owned) + rest;
    assert |owned.Keys| == |owned|;
    assert rest == {} <==> AllUpdated(owned);
  }

  /** Every owned node is told to run `target`; membership sync sees to it. */
  predicate Aimed(owned: R.Owned, target: Digest) {
    forall n | n in owned :: owned[n].desired.Digested? && owned[n].desired.digest == target
  }

  /** Every owned node reports `target` as booted and is not degraded. */
  predicate AllOnTarget(owned: R.Owned, target: Digest) {
    forall n | n in owned :: !owned[n].status.degraded && InfoMatchesDigest(owned[n].status.booted, target)
  }

  lemma UpdatedMeansOnTarget(owned: R.Owned, target: Digest)
    requires Aimed(owned, target)
    ensures AllUpdated(owned) <==> AllOnTarget(owned, target)
  {
    forall n | n in owned
      ensures ClassifyNode(owned[n]) == Some(UpToDate) <==>
              !owned[n].status.degraded && InfoMatchesDigest(owned[n].status.booted, target)
    {
    }
  }

  /** What the pool's counters say. */
  predicate LooksUpdated(owned: R.Owned) {
    ClampCount(|owned|) == ClampCount(|Updated(owned)|)
  }

  /** The counters tell the truth exactly if they are not saturated by updated nodes alone. */
  lemma LooksUpdatedIff(owned: R.Owned)
    ensures LooksUpdated(owned) <==> AllUpdated(owned) || |Updated(owned)| >= MAX_INT32
  {
    AllCounted(owned);
  }

  lemma LooksAimed(owned: R.Owned, target: Digest)
    requires Aimed(owned, target)
    ensures LooksUpdated(owned) <==>
            AllOnTarget(owned, target) || (|owned| > MAX_INT32 && |Updated(owned)| >= MAX_INT32)
  {
    LooksUpdatedIff(owned);
    UpdatedMeansOnTarget(owned, target);
    AllCounted(owned);
  }

  const CURRENT := BootcNode(None, Digested("os", "d"), false, map[], NO_STATUS.(booted := Some(ImageInfo(Unparseable, "d"))))
  const OUTDATED := CURRENT.(status := NO_STATUS)

  function Tally(k: nat): (s: string)
    ensures |s| == k
  {
    seq(k, _ => 'I')
  }

  /** A pool of `k` nodes on the target. */
  function Crowd(k: nat): R.Owned {
    if k == 0 then map[] else Crowd(k - 1)[Tally(k) := CURRENT]
  }

  lemma {:induction false} CrowdSize(k: nat)
    ensures |Crowd(k)| == k && forall n | n in Crowd(k) :: 0 < |n| <= k && Crowd(k)[n] == CURRENT
  {
    if k > 0 {
      CrowdSize(k - 1);
      assert Tally(k) !in Crowd(k - 1);
    }
  }

  /** Beyond that, a pool with an outdated node reports itself up to date. */
  lemma SaturationHidesOutdated(k: nat)
    requires k >= MAX_INT32
    ensures var owned := Crowd(k)["" := OUTDATED];
            !AllUpdated(owned) && LooksUpdated(owned)
  {
    CrowdSize(k);
    var crowd := Crowd(k);
    var owned := crowd["" := OUTDATED];
    assert "" !in crowd && ClassifyNode(owned[""]) == Some(Pending);
    forall n
      ensures n in Updated(owned) <==> n in crowd.Keys
    {
    }
    assert Updated(owned) == crowd.Keys && |crowd.Keys| == |crowd|;
    LooksUpdatedIff(owned);
  }

  // ---- Reasons ------------------------------------------------------------------------------

  datatype DegradedReason =
    Healthy | NodeDegraded | SecretError | NodeConflict | RolloutHalted | InvalidSpec | TagResolutionError

  function Precedence(r: DegradedReason): nat {
    match r
    case Healthy => 0
    case NodeDegraded => 1
    case SecretError => 2
    case NodeConflict => 3
    case RolloutHalted => 4
    case InvalidSpec => 5
    case TagResolutionError => 6
  }

  /** `r` outranks everything else in `reasons`. */
  predicate Highest(r: DegradedReason, reasons: set<DegradedReason>) {
    r in reasons && forall q | q in reasons :: Precedence(q) <= Precedence(r)
  }

  /** There is only one such reason, so the order of assertion cannot matter. */
  lemma HighestIsUnique(q: DegradedReason, r: DegradedReason, reasons: set<DegradedReason>)
    requires Highest(q, reasons) && Highest(r, reasons)
    ensures q == r
  {
  }

  /** The order of the reasons, from the one that always shows to the one that shows only alone. */
  function Foremost(reasons: set<DegradedReason>): DegradedReason {
    if TagResolutionError in reasons then TagResolutionError
    else if InvalidSpec in reasons then InvalidSpec
    else if RolloutHalted in reasons then RolloutHalted
    else if NodeConflict in reasons then NodeConflict
    else if SecretError in reasons then SecretError
    else if NodeDegraded in reasons then NodeDegraded
    else Healthy
  }

  lemma HighestIsForemost(r: DegradedReason, reasons: set<DegradedReason>)
    requires Highest(r, reasons)
    ensures r == Foremost(reasons)
  {
  }

  datatype Verdict = Verdict(status: bool, reason: DegradedReason)

  datatype Progress = AllNodesUpdated | Paused | RolloutInProgress

  /** What became of resolving the tag: a digest reference or a fresh digest clears the reason, a
      failure sets it, and before the next resolution is due it stays as it was. */
  datatype Resolution = Resolved(digest: Digest) | Failed | NotDue

  function Among(s: seq<DegradedReason>): set<DegradedReason> {
    set q | q in s
  }

  /** What the counters are set from. */
  predicate Tallied(b: R.Buckets, owned: R.Owned, timeout: int, now: int) {
    && R.NodeCount(b) == |owned| && |b.upToDate| == |Updated(owned)|
    && |b.degraded| == |AilingNames(owned, timeout, now)| && Updating(b) == |OnTheWayNames(owned, timeout, now)|
    && |owned| == |b.upToDate| + Updating(b) + |b.degraded| + |b.unclassified|
  }

  lemma CountsAgree(b: R.Buckets, owned: R.Owned, timeout: int, now: int)
    requires Tallied(b, owned, timeout, now)
    ensures ClampCount(R.NodeCount(b)) == ClampCount(|b.upToDate|) <==> LooksUpdated(owned)
    ensures AllUpdated(owned) ==> LooksUpdated(owned)
    ensures |owned| <= MAX_INT32 ==> (LooksUpdated(owned) <==> AllUpdated(owned))
    ensures |owned| <= MAX_INT32 ==>
              ClampCount(R.NodeCount(b)) == ClampCount(|b.upToDate|) + ClampCount(Updating(b))
                                            + ClampCount(|b.degraded|) + |b.unclassified|
  {
    LooksUpdatedIff(owned);
    AllCounted(owned);
  }

  datatype Sweep = Sweep(owned: R.Owned, target: Digest)

  /** Some pass saw all nodes on `d` while `d` was the target. */
  ghost predicate Deployed(sweeps: seq<Sweep>, d: Digest) {
    exists i | 0 <= i < |sweeps| :: sweeps[i].target == d && AllOnTarget(sweeps[i].owned, d)
  }

  lemma DeployedOnward(sweeps: seq<Sweep>, w: Sweep, d: Digest)
    ensures Deployed(sweeps, d) ==> Deployed(sweeps + [w], d)
    ensures AllOnTarget(w.owned, w.target) ==> Deployed(sweeps + [w], w.target)
  {
    if Deployed(sweeps, d) {
      var i :| 0 <= i < |sweeps| && sweeps[i].target == d && AllOnTarget(sweeps[i].owned, d);
      assert (sweeps + [w])[i] == sweeps[i];
    }
    assert (sweeps + [w])[|sweeps|] == w;
  }

  class Pool {
    var targetDigest: Digest
    var deployedDigest: Digest
    var nodeCount: int
    var updatedCount: int
    var updatingCount: int
    var degradedCount: int
    var updateAvailable: bool
    var upToDate: Option<Progress>
    var degraded: Option<Verdict>
    /** What the passes so far saw: their nodes and their target. */
    ghost var sweeps: seq<Sweep>
    ghost const inherited: Digest
    /** Some pass had more nodes than the counters hold. */
    ghost var overflowed: bool

    /** The deployed digest was the target of a pass that saw all nodes on it, unless it was there before;
        and nothing is degraded for being healthy. */
    ghost predicate Valid()
      reads this
    {
      && (overflowed || deployedDigest == inherited || Deployed(sweeps, deployedDigest))
      && (degraded.Some? && degraded.value.status ==> degraded.value.reason != Healthy)
    }

    constructor (target: Digest, deployed: Digest, degraded0: Option<Verdict>)
      requires degraded0.Some? && degraded0.value.status ==> degraded0.value.reason != Healthy
      ensures Valid() && !overflowed && sweeps == [] && targetDigest == target
      ensures deployedDigest == deployed && inherited == deployed && degraded == degraded0
    {
      targetDigest, deployedDigest, degraded := target, deployed, degraded0;
      nodeCount, updatedCount, updatingCount, degradedCount := 0, 0, 0, 0;
      updateAvailable, upToDate := false, None;
      sweeps, inherited, overflowed := [], deployed, false;
    }

    /** Sets counts, deployed digest and UpToDate from the buckets of a pass. The counts conserve the
        nodes; up to the range of the counters, the pool is up to date, and its target deployed, exactly
        if every node reports the target and is not degraded. */
    method SyncPoolStatus(b: R.Buckets, paused: bool, ghost owned: R.Owned, ghost timeout: int, ghost now: int)
      requires Valid() && Tallied(b, owned, timeout, now) && Aimed(owned, targetDigest)
      modifies this
      ensures Valid() && targetDigest == old(targetDigest) && degraded == old(degraded)
      ensures overflowed == (old(overflowed) || |owned| > MAX_INT32)
      ensures nodeCount == ClampCount(|owned|) && updatedCount == ClampCount(|Updated(owned)|)
      ensures updatingCount == ClampCount(|OnTheWayNames(owned, timeout, now)|)
      ensures degradedCount == ClampCount(|AilingNames(owned, timeout, now)|)
      ensures |owned| <= MAX_INT32 ==>
                nodeCount == updatedCount + updatingCount + degradedCount + |b.unclassified|
      ensures upToDate == Some(if LooksUpdated(owned) then AllNodesUpdated else if paused then Paused else RolloutInProgress)
      ensures deployedDigest == if LooksUpdated(owned) then targetDigest else old(deployedDigest)
      ensures LooksUpdated(owned) <==>
              AllOnTarget(owned, targetDigest) || (|owned| > MAX_INT32 && |Updated(owned)| >= MAX_INT32)
      ensures sweeps == old(sweeps) + [Sweep(owned, targetDigest)]
      ensures updateAvailable <==> deployedDigest != targetDigest
    {
      SyncCounts(b, owned, timeout, now);
      SyncDigest(owned);
      SyncUpToDateCondition(paused);
    }

    method SyncCounts(b: R.Buckets, ghost owned: R.Owned, ghost timeout: int, ghost now: int)
      requires Tallied(b, owned, timeout, now)
      modifies `nodeCount, `updatedCount, `updatingCount, `degradedCount
      ensures nodeCount == ClampCount(|owned|) && updatedCount == ClampCount(|Updated(owned)|)
      ensures nodeCount == updatedCount <==> LooksUpdated(owned)
      ensures |owned| <= MAX_INT32 ==>
                nodeCount == updatedCount + updatingCount + degradedCount + |b.unclassified|
      ensures updatingCount == ClampCount(|OnTheWayNames(owned, timeout, now)|)
      ensures degradedCount == ClampCount(|AilingNames(owned, timeout, now)|)
    {
      CountsAgree(b, owned, timeout, now);
      nodeCount := ClampCount(R.NodeCount(b));
      updatedCount := ClampCount(|b.upToDate|);
      updatingCount := ClampCount(|b.pending| + |b.staging| + |b.staged| + |b.rebooting|);
      degradedCount := ClampCount(|b.degraded|);
    }

    method SyncDigest(ghost owned: R.Owned)
      requires Valid() && Aimed(owned, targetDigest) && (nodeCount == updatedCount <==> LooksUpdated(owned))
      modifies `deployedDigest, `updateAvailable, `sweeps, `overflowed
      ensures Valid() && overflowed == (old(overflowed) || |owned| > MAX_INT32)
      ensures deployedDigest == if LooksUpdated(owned) then targetDigest else old(deployedDigest)
      ensures LooksUpdated(owned) <==>
              AllOnTarget(owned, targetDigest) || (|owned| > MAX_INT32 && |Updated(owned)| >= MAX_INT32)
      ensures sweeps == old(sweeps) + [Sweep(owned, targetDigest)]
      ensures updateAvailable <==> deployedDigest != targetDigest
    {
      LooksAimed(owned, targetDigest);
      DeployedOnward(sweeps, Sweep(owned, targetDigest), deployedDigest);
      sweeps := sweeps + [Sweep(owned, targetDigest)];
      overflowed := overflowed || |owned| > MAX_INT32;
      if nodeCount == updatedCount {
        deployedDigest := targetDigest;
      }
      updateAvailable := targetDigest != deployedDigest;
    }

    method SyncUpToDateCondition(paused: bool)
      modifies `upToDate
      ensures upToDate == Some(if nodeCount == updatedCount then AllNodesUpdated
                               else if paused then Paused else RolloutInProgress)
    {
      if paused && nodeCount != updatedCount {
        upToDate := Some(Paused);
      } else if nodeCount != updatedCount {
        upToDate := Some(RolloutInProgress);
      } else {
        upToDate := Some(AllNodesUpdated);
      }
    }

    predicate IsDegraded()
      reads this
    {
      degraded.Some? && degraded.value.status
    }

    method SetDegraded(reason: DegradedReason)
      requires Valid() && reason != Healthy
      modifies `degraded
      ensures Valid() && IsDegraded()
      ensures degraded.value.reason ==
              if old(IsDegraded()) && Precedence(reason) < Precedence(old(degraded).value.reason)
              then old(degraded).value.reason else reason
      ensures degraded.value.reason ==
              Foremost({reason} + if old(IsDegraded()) then {old(degraded).value.reason} else {})
    {
      if IsDegraded() && Precedence(reason) < Precedence(degraded.value.reason) {
        return;
      }
      degraded := Some(Verdict(true, reason));
    }

    method ClearDegraded(reason: DegradedReason)
      requires Valid()
      modifies `degraded
      ensures Valid()
      ensures if old(IsDegraded()) && old(degraded).value.reason == reason then !IsDegraded() else degraded == old(degraded)
    {
      if IsDegraded() && degraded.value.reason == reason {
        degraded := Some(Verdict(false, Healthy));
      }
    }

    method ResolveTarget(r: Resolution)
      requires Valid()
      modifies `degraded, `targetDigest
      ensures Valid()
      ensures r.Resolved? ==> targetDigest == r.digest && !(IsDegraded() && degraded.value.reason == TagResolutionError)
      ensures r.Failed? ==> IsDegraded() && degraded.value.reason == TagResolutionError
      ensures r.NotDue? ==> degraded == old(degraded)
      ensures !r.Resolved? ==> targetDigest == old(targetDigest)
      ensures IsDegraded() ==> r.Failed? || degraded == old(degraded)
    {
      match r
      case Resolved(digest) =>
        targetDigest := digest;
        ClearDegraded(TagResolutionError);
      case Failed => SetDegraded(TagResolutionError);
      case NotDue =>
    }

    /** The Degraded condition of a pass that gets past clearing. Whatever reason it started from and
        in whatever order the checks of the pass assert theirs, the result is the highest of those
        asserted and of a tag error that is still standing; without any, the pool is not degraded. */
    method Judge(r: Resolution, asserted: seq<DegradedReason>)
      requires Valid() && forall q | q in asserted :: q in {NodeConflict, NodeDegraded, RolloutHalted, InvalidSpec}
      modifies `degraded, `targetDigest
      ensures Valid() && targetDigest == if r.Resolved? then r.digest else old(targetDigest)
      ensures var standing := r.Failed? || (r.NotDue? && old(IsDegraded()) && old(degraded).value.reason == TagResolutionError);
              var reasons := Among(asserted) + if standing then {TagResolutionError} else {};
              && (IsDegraded() <==> reasons != {})
              && (IsDegraded() ==> degraded.value.reason == Foremost(reasons))
    {
      ghost var standing := r.Failed? || (r.NotDue? && IsDegraded() && degraded.value.reason == TagResolutionError);
      ClearDegraded(SecretError);
      ResolveTarget(r);
      ClearDegraded(NodeConflict);
      ClearDegraded(NodeDegraded);
      ClearDegraded(RolloutHalted);
      ClearDegraded(InvalidSpec);
      ghost var kept := if standing then {TagResolutionError} else {};
      assert IsDegraded() <==> standing;
      for i := 0 to |asserted|
        invariant Valid() && targetDigest == if r.Resolved? then r.digest else old(targetDigest)
        invariant IsDegraded() <==> Among(asserted[..i]) + kept != {}
        invariant IsDegraded() ==> Highest(degraded.value.reason, Among(asserted[..i]) + kept)
      {
        assert asserted[i] in asserted && asserted[..i + 1] == asserted[..i] + [asserted[i]];
        assert Among(asserted[..i + 1]) == Among(asserted[..i]) + {asserted[i]};
        SetDegraded(asserted[i]);
      }
      assert asserted[..|asserted|] == asserted;
      if IsDegraded() { HighestIsForemost(degraded.value.reason, Among(asserted) + kept); }
    }
  }
}
