/** The controller's view of a pool within one pass: classified nodes, reboot timeouts, unhealthy
    slots and the order in which candidates are served. */
module RolloutStates {
  import opened Types
  import opened Slot
  import opened Classify

  type Owned = map<Name, BootcNode>

  datatype Buckets = Buckets(
    upToDate: seq<Name>,
    pending: seq<Name>,
    staging: seq<Name>,
    staged: seq<Name>,
    rebooting: seq<Name>,
    degraded: seq<Name>,
    unclassified: seq<Name>)

  function Bucket(b: Buckets, state: Option<NodeState>): seq<Name> {
    match state
    case None => b.unclassified
    case Some(UpToDate) => b.upToDate
    case Some(Pending) => b.pending
    case Some(Staging) => b.staging
    case Some(Staged) => b.staged
    case Some(Rebooting) => b.rebooting
    case Some(Degraded) => b.degraded
  }

  function Put(b: Buckets, state: Option<NodeState>, n: Name): (r: Buckets)
    ensures Bucket(r, state) == Bucket(b, state) + [n]
    ensures forall other | other != state :: Bucket(r, other) == Bucket(b, other)
  {
    match state
    case None => b.(unclassified := b.unclassified + [n])
    case Some(UpToDate) => b.(upToDate := b.upToDate + [n])
    case Some(Pending) => b.(pending := b.pending + [n])
    case Some(Staging) => b.(staging := b.staging + [n])
    case Some(Staged) => b.(staged := b.staged + [n])
    case Some(Rebooting) => b.(rebooting := b.rebooting + [n])
    case Some(Degraded) => b.(degraded := b.degraded + [n])
  }

  function NodeCount(b: Buckets): nat {
    |b.upToDate| + |b.pending| + |b.staging| + |b.staged| + |b.rebooting| + |b.degraded| + |b.unclassified|
  }

  predicate Distinct(s: seq<Name>) {
    forall i, j | 0 <= i < j < |s| :: s[i] != s[j]
  }

  function SlottedNames(owned: Owned, within: set<Name>): set<Name> {
    set n | n in within && n in owned && HasSlot(owned[n])
  }

  /** Every node in `done` sits in exactly the bucket of its classification, once. */
  ghost predicate Classified(b: Buckets, owned: Owned, done: set<Name>) {
    && (forall state :: Distinct(Bucket(b, state)))
    && (forall state, n :: n in Bucket(b, state) <==> n in done && n in owned && ClassifyNode(owned[n]) == state)
    && NodeCount(b) == |done|
  }

  lemma PutKeepsClassified(b: Buckets, owned: Owned, done: set<Name>, n: Name)
    requires Classified(b, owned, done) && n in owned && n !in done
    ensures Classified(Put(b, ClassifyNode(owned[n]), n), owned, done + {n})
  {
    var b' := Put(b, ClassifyNode(owned[n]), n);
    assert n !in Bucket(b, ClassifyNode(owned[n]));
    forall state
      ensures Distinct(Bucket(b', state))
      ensures forall k :: k in Bucket(b', state) <==> k in done + {n} && k in owned && ClassifyNode(owned[k]) == state
    {
      assert Distinct(Bucket(b, state));
      assert state != ClassifyNode(owned[n]) ==> Bucket(b', state) == Bucket(b, state);
      assert forall k :: k in Bucket(b, state) <==> k in done && k in owned && ClassifyNode(owned[k]) == state;
    }
  }

  /** Classification does not look at annotations. */
  lemma ClassifiedAgain(b: Buckets, owned: Owned, owned': Owned)
    requires Classified(b, owned, owned.Keys) && owned'.Keys == owned.Keys
    requires forall n | n in owned :: owned'[n] == owned[n].(annotations := owned'[n].annotations)
    ensures Classified(b, owned', owned'.Keys)
  {
    forall state, n
      ensures n in Bucket(b, state) <==> n in owned'.Keys && n in owned' && ClassifyNode(owned'[n]) == state
    {
      assert n in Bucket(b, state) <==> n in owned && ClassifyNode(owned[n]) == state;
      if n in owned { assert ClassifyNode(owned'[n]) == ClassifyNode(owned[n]); }
    }
    assert forall state :: Distinct(Bucket(b, state));
  }

  lemma SlottedStep(owned: Owned, done: set<Name>, n: Name)
    requires n in owned && n !in done
    ensures |SlottedNames(owned, done + {n})| == |SlottedNames(owned, done)| + if HasSlot(owned[n]) then 1 else 0
  {
    var x, y := SlottedNames(owned, done), SlottedNames(owned, done + {n});
    assert y == if HasSlot(owned[n]) then x + {n} else x;
  }

  /** The nodes in `done` are classified, and the slots they hold counted. */
  ghost predicate Tallied(b: Buckets, occupied: nat, owned: Owned, done: set<Name>) {
    Classified(b, owned, done) && occupied == |SlottedNames(owned, done)|
  }

  lemma NothingTallied(owned: Owned)
    ensures Tallied(Buckets([], [], [], [], [], [], []), 0, owned, {})
  {
    assert SlottedNames(owned, {}) == {};
  }

  /** Puts one node into its bucket and counts its slot. */
  method PutOne(b: Buckets, occupied: nat, owned: Owned, ghost done: set<Name>, n: Name) returns (b': Buckets, occupied': nat)
    requires Tallied(b, occupied, owned, done) && n in owned && n !in done
    ensures Tallied(b', occupied', owned, done + {n})
  {
    PutKeepsClassified(b, owned, done, n);
    SlottedStep(owned, done, n);
    b', occupied' := Put(b, ClassifyNode(owned[n]), n), occupied;
    if HasSlot(owned[n]) {
      occupied' := occupied + 1;
    }
  }

  /** Classifies the owned nodes and counts the slots they hold, in whatever order they come. */
  method BuildRolloutState(owned: Owned) returns (b: Buckets, occupied: nat)
    ensures Classified(b, owned, owned.Keys)
    ensures occupied == |SlottedNames(owned, owned.Keys)|
  {
    b, occupied := Buckets([], [], [], [], [], [], []), 0;
    var todo := owned.Keys;
    ghost var done: set<Name> := {};
    NothingTallied(owned);
    while todo != {}
      invariant todo !! done && done + todo == owned.Keys
      invariant Tallied(b, occupied, owned, done)
      decreases todo
    {
      var n :| n in todo;
      b, occupied := PutOne(b, occupied, owned, done, n);
      todo, done := todo - {n}, done + {n};
    }
    assert done == owned.Keys;
  }

  // ---- Reboot timeouts ----------------------------------------------------------------------

  predicate RebootTimedOut(bn: BootcNode, timeout: int, now: int) {
    && timeout > 0
    && bn.status.idle.Some? && bn.status.idle.value.reason == ReasonRebooting
    && now - bn.status.idle.value.since > timeout
  }

  /** The nodes of `s` that have (or have not) exceeded the timeout, in order. */
  function Expired(owned: Owned, s: seq<Name>, timeout: int, now: int, expired: bool): seq<Name>
    requires forall n | n in s :: n in owned
  {
    if s == [] then []
    else
      var front := Expired(owned, s[..|s| - 1], timeout, now, expired);
      if RebootTimedOut(owned[s[|s| - 1]], timeout, now) == expired then front + [s[|s| - 1]] else front
  }

  predicate Reboots(bn: BootcNode) {
    bn.status.idle.Some? && bn.status.idle.value.reason == ReasonRebooting
  }

  /** A node without an Idle condition has no deadline. */
  function TimeLeft(bn: BootcNode, timeout: int, now: int): int {
    if bn.status.idle.None? then 0 else timeout - (now - bn.status.idle.value.since)
  }

  /** `w` is the least positive time left among `s`, or 0 if there is none. */
  ghost predicate IsWakeUp(owned: Owned, s: seq<Name>, timeout: int, now: int, w: int)
    requires forall n | n in s :: n in owned
  {
    && w >= 0
    && (w > 0 ==> exists n | n in s :: TimeLeft(owned[n], timeout, now) == w)
    && (forall n | n in s && TimeLeft(owned[n], timeout, now) > 0 :: 0 < w <= TimeLeft(owned[n], timeout, now))
  }

  lemma {:induction false} ExpiredMembers(owned: Owned, s: seq<Name>, timeout: int, now: int, expired: bool)
    requires forall n | n in s :: n in owned
    ensures forall n :: n in Expired(owned, s, timeout, now, expired)
                        <==> n in s && RebootTimedOut(owned[n], timeout, now) == expired
    ensures Distinct(s) ==> Distinct(Expired(owned, s, timeout, now, expired))
    ensures |Expired(owned, s, timeout, now, true)| + |Expired(owned, s, timeout, now, false)| == |s|
  {
    ExpiredCount(owned, s, timeout, now);
    forall n
      ensures n in Expired(owned, s, timeout, now, expired) <==> n in s && RebootTimedOut(owned[n], timeout, now) == expired
    {
      ExpiredMember(owned, s, timeout, now, expired, n);
    }
    if Distinct(s) { ExpiredDistinct(owned, s, timeout, now, expired); }
  }

  lemma {:induction false} ExpiredMember(owned: Owned, s: seq<Name>, timeout: int, now: int, expired: bool, n: Name)
    requires forall k | k in s :: k in owned
    ensures n in Expired(owned, s, timeout, now, expired) <==> n in s && RebootTimedOut(owned[n], timeout, now) == expired
  {
    if s != [] {
      var front, last := s[..|s| - 1], s[|s| - 1];
      assert s == front + [last];
      ExpiredMember(owned, front, timeout, now, expired, n);
    }
  }

  lemma {:induction false} ExpiredDistinct(owned: Owned, s: seq<Name>, timeout: int, now: int, expired: bool)
    requires (forall n | n in s :: n in owned) && Distinct(s)
    ensures Distinct(Expired(owned, s, timeout, now, expired))
  {
    if s != [] {
      var front, last := s[..|s| - 1], s[|s| - 1];
      ExpiredDistinct(owned, front, timeout, now, expired);
      ExpiredMember(owned, front, timeout, now, expired, last);
    }
  }

  lemma {:induction false} ExpiredCount(owned: Owned, s: seq<Name>, timeout: int, now: int)
    requires forall n | n in s :: n in owned
    ensures |Expired(owned, s, timeout, now, true)| + |Expired(owned, s, timeout, now, false)| == |s|
  {
    if s != [] { ExpiredCount(owned, s[..|s| - 1], timeout, now); }
  }

  lemma ExpiredStep(owned: Owned, s: seq<Name>, i: nat, timeout: int, now: int, expired: bool)
    requires i < |s| && forall n | n in s :: n in owned
    ensures Expired(owned, s[..i + 1], timeout, now, expired)
            == Expired(owned, s[..i], timeout, now, expired)
               + if RebootTimedOut(owned[s[i]], timeout, now) == expired then [s[i]] else []
  {
    assert s[..i + 1][..i] == s[..i];
  }

  lemma {:induction false} NothingExpires(owned: Owned, s: seq<Name>, timeout: int, now: int)
    requires timeout <= 0 && forall n | n in s :: n in owned
    ensures Expired(owned, s, timeout, now, false) == s && Expired(owned, s, timeout, now, true) == []
  {
    if s != [] {
      NothingExpires(owned, s[..|s| - 1], timeout, now);
      assert s == s[..|s| - 1] + [s[|s| - 1]];
    }
  }

  function Earlier(w: int, left: int): int {
    if left > 0 && (w == 0 || left < w) then left else w
  }

  /** The wake-up over one more kept node. */
  lemma WakeUpStep(owned: Owned, s: seq<Name>, n: Name, timeout: int, now: int, w: int)
    requires (forall k | k in s :: k in owned) && n in owned && IsWakeUp(owned, s, timeout, now, w)
    ensures var left := TimeLeft(owned[n], timeout, now);
            IsWakeUp(owned, s + [n], timeout, now, Earlier(w, left))
  {
    assert forall k :: k in s + [n] <==> k in s || k == n;
    if w > 0 {
      var k :| k in s && TimeLeft(owned[k], timeout, now) == w;
      assert k in s + [n];
    }
    assert n in s + [n];
  }

  /** Appends element `i` to the `kept` elements at the front; what has not been looked at stays. */
  method Keep(names: array<Name>, kept: nat, i: nat)
    requires kept <= i < names.Length
    modifies names
    ensures names[..kept + 1] == old(names[..kept]) + [old(names[i])] && names[i + 1..] == old(names[i + 1..])
  {
    names[kept] := names[i];
  }

  /** Splits the rebooting nodes in place: what is kept is written to the front of the very array
      that is being iterated. Returns how many are kept, who timed out, and when to look again. */
  method ApplyRebootTimeouts(rebooting: array<Name>, owned: Owned, timeout: int, now: int)
    returns (kept: nat, expired: seq<Name>, requeue: int)
    requires forall n | n in rebooting[..] :: n in owned
    modifies rebooting
    ensures kept <= rebooting.Length
    ensures rebooting[..kept] == Expired(owned, old(rebooting[..]), timeout, now, false)
    ensures expired == Expired(owned, old(rebooting[..]), timeout, now, true)
    ensures forall n | n in rebooting[..kept] :: n in owned
    ensures if timeout <= 0 then requeue == 0 else IsWakeUp(owned, rebooting[..kept], timeout, now, requeue)
  {
    ghost var was := rebooting[..];
    kept, expired, requeue := 0, [], 0;
    if timeout <= 0 {
      NothingExpires(owned, was, timeout, now);
      return rebooting.Length, [], 0;
    }
    for i := 0 to rebooting.Length
      invariant kept <= i && rebooting[i..] == was[i..]
      invariant rebooting[..kept] == Expired(owned, was[..i], timeout, now, false)
      invariant expired == Expired(owned, was[..i], timeout, now, true)
      invariant forall n | n in rebooting[..kept] :: n in owned
      invariant IsWakeUp(owned, rebooting[..kept], timeout, now, requeue)
    {
      var n := rebooting[i];
      assert n == rebooting[i..][0] == was[i] && n in was && rebooting[i + 1..] == rebooting[i..][1..];
      ExpiredStep(owned, was, i, timeout, now, true);
      ExpiredStep(owned, was, i, timeout, now, false);
      if RebootTimedOut(owned[n], timeout, now) {
        expired := expired + [n];
      } else {
        ghost var front := rebooting[..kept];
        WakeUpStep(owned, front, n, timeout, now, requeue);
        requeue := Earlier(requeue, TimeLeft(owned[n], timeout, now));
        Keep(rebooting, kept, i);
        kept := kept + 1;
      }
      assert was[i + 1..] == was[i..][1..];
    }
    assert was[..|was|] == was;
  }

  /** The same on the bucket of a pass. */
  method TimeOutRebooting(names: seq<Name>, owned: Owned, timeout: int, now: int)
    returns (waiting: seq<Name>, expired: seq<Name>, requeue: int)
    requires forall n | n in names :: n in owned
    ensures waiting == Expired(owned, names, timeout, now, false)
    ensures expired == Expired(owned, names, timeout, now, true)
    ensures forall n | n in waiting :: n in owned
    ensures if timeout <= 0 then requeue == 0 else IsWakeUp(owned, waiting, timeout, now, requeue)
  {
    var rebooting := new Name[|names|](i requires 0 <= i < |names| => names[i]);
    assert rebooting[..] == names;
    var kept;
    kept, expired, requeue := ApplyRebootTimeouts(rebooting, owned, timeout, now);
    waiting := rebooting[..kept];
  }

  /** The wake-up is exact: no node with time left expires up to it, and one has expired as soon as
      it is past. */
  lemma WakeUpIsExact(owned: Owned, s: seq<Name>, timeout: int, now: int, w: int)
    requires timeout > 0
    requires forall n | n in s :: n in owned && Reboots(owned[n])
    requires IsWakeUp(owned, s, timeout, now, w) && w > 0
    ensures forall n, t | n in s && TimeLeft(owned[n], timeout, now) > 0 && now <= t <= now + w ::
              !RebootTimedOut(owned[n], timeout, t)
    ensures exists n | n in s :: forall t | t > now + w :: RebootTimedOut(owned[n], timeout, t)
  {
    var n :| n in s && TimeLeft(owned[n], timeout, now) == w;
    assert forall t | t > now + w :: RebootTimedOut(owned[n], timeout, t);
  }

  predicate OnDeadline(bn: BootcNode, timeout: int, now: int) {
    Reboots(bn) && now - bn.status.idle.value.since == timeout
  }

  /** Every kept node is covered by a wake-up no later than its deadline, except in one case: a node
      that sits exactly on its deadline is neither timed out nor waited for. */
  lemma WakeUpCoversAllIff(owned: Owned, s: seq<Name>, timeout: int, now: int, w: int)
    requires timeout > 0
    requires forall n | n in s :: n in owned && Reboots(owned[n])
    requires forall n | n in s :: !RebootTimedOut(owned[n], timeout, now)
    requires IsWakeUp(owned, s, timeout, now, w)
    ensures (forall n | n in s :: 0 < w <= TimeLeft(owned[n], timeout, now))
            <==> forall n | n in s :: !OnDeadline(owned[n], timeout, now)
  {
  }

  // ---- Unhealthy slots ----------------------------------------------------------------------

  datatype Unhealthy = Unhealthy(name: Name, reason: Reasons)
  datatype Reasons = WasDegraded | NotReady | RebootTimeout

  predicate BadDegraded(bn: BootcNode, target: Digest) {
    HasSlot(bn) && (bn.status.booted.None? || InfoMatchesDigest(bn.status.booted, target))
  }

  /** The selection of one of the three loops: `why` says which. */
  predicate Selected(bn: BootcNode, target: Digest, why: Reasons) {
    if why == WasDegraded then BadDegraded(bn, target) else HasSlot(bn)
  }

  function Select(owned: Owned, s: seq<Name>, target: Digest, why: Reasons): seq<Unhealthy>
    requires forall n | n in s :: n in owned
  {
    if s == [] then []
    else
      var front := Select(owned, s[..|s| - 1], target, why);
      if Selected(owned[s[|s| - 1]], target, why) then front + [Unhealthy(s[|s| - 1], why)] else front
  }

  function UnhealthySlots(owned: Owned, degraded: seq<Name>, upToDate: seq<Name>, timedOut: seq<Name>, target: Digest)
    : seq<Unhealthy>
    requires forall n | n in degraded + upToDate + timedOut :: n in owned
  {
    Select(owned, degraded, target, WasDegraded) + Select(owned, upToDate, target, NotReady)
    + Select(owned, timedOut, target, RebootTimeout)
  }

  predicate NoNameTwice(r: seq<Unhealthy>) {
    forall i, j | 0 <= i < j < |r| :: r[i].name != r[j].name
  }

  lemma {:induction false} SelectMembers(owned: Owned, s: seq<Name>, target: Digest, why: Reasons)
    requires forall n | n in s :: n in owned
    ensures forall u :: u in Select(owned, s, target, why) <==>
                        u.reason == why && u.name in s && Selected(owned[u.name], target, why)
    ensures Distinct(s) ==> NoNameTwice(Select(owned, s, target, why))
  {
    if s != [] {
      SelectMembers(owned, s[..|s| - 1], target, why);
      assert s == s[..|s| - 1] + [s[|s| - 1]];
    }
  }

  method FindUnhealthySlots(owned: Owned, degraded: seq<Name>, upToDate: seq<Name>, timedOut: seq<Name>, target: Digest)
    returns (r: seq<Unhealthy>)
    requires forall n | n in degraded + upToDate + timedOut :: n in owned
    ensures r == UnhealthySlots(owned, degraded, upToDate, timedOut, target)
  {
    var r1 := SelectLoop(owned, degraded, target, WasDegraded);
    var r2 := SelectLoop(owned, upToDate, target, NotReady);
    var r3 := SelectLoop(owned, timedOut, target, RebootTimeout);
    r := r1 + r2 + r3;
  }

  method SelectLoop(owned: Owned, s: seq<Name>, target: Digest, why: Reasons) returns (r: seq<Unhealthy>)
    requires forall n | n in s :: n in owned
    ensures r == Select(owned, s, target, why)
  {
    r := [];
    for i := 0 to |s|
      invariant r == Select(owned, s[..i], target, why)
    {
      assert s[..i + 1][..i] == s[..i];
      if Selected(owned[s[i]], target, why) {
        r := r + [Unhealthy(s[i], why)];
      }
    }
    assert s[..|s|] == s;
  }

  /** A timed-out node that already reports the target as booted would be counted twice. */
  predicate CountsDouble(bn: BootcNode, target: Digest) {
    HasSlot(bn) && InfoMatchesDigest(bn.status.booted, target)
  }

  lemma OverlapIsDouble(owned: Owned, b: Buckets, timedOut: seq<Name>, target: Digest, n: Name)
    requires Classified(b, owned, owned.Keys) && n in timedOut && forall k | k in timedOut :: k in b.rebooting
    ensures n in owned && ClassifyNode(owned[n]) == Some(Rebooting)
    ensures Selected(owned[n], target, WasDegraded) <==> CountsDouble(owned[n], target)
  {
    assert Bucket(b, Some(Rebooting)) == b.rebooting;
  }

  lemma ListsAreDistinct(owned: Owned, b: Buckets, timedOut: seq<Name>)
    requires Classified(b, owned, owned.Keys)
    requires Distinct(timedOut) && forall n | n in timedOut :: n in b.rebooting
    ensures forall n | n in b.degraded + timedOut + b.upToDate + timedOut :: n in owned
    ensures Distinct(b.degraded + timedOut) && Distinct(b.upToDate)
    ensures forall n | n in b.upToDate :: ClassifyNode(owned[n]) == Some(UpToDate)
    ensures forall n | n in b.degraded :: ClassifyNode(owned[n]) == Some(Degraded)
    ensures forall n | n in timedOut :: ClassifyNode(owned[n]) == Some(Rebooting)
  {
    assert Bucket(b, Some(UpToDate)) == b.upToDate && Bucket(b, Some(Degraded)) == b.degraded;
    assert Bucket(b, Some(Rebooting)) == b.rebooting;
    assert forall n | n in b.upToDate :: n in owned && ClassifyNode(owned[n]) == Some(UpToDate);
    assert forall n | n in b.degraded :: n in owned && ClassifyNode(owned[n]) == Some(Degraded);
    assert forall n | n in b.rebooting :: n in owned && ClassifyNode(owned[n]) == Some(Rebooting);
    assert Distinct(Bucket(b, Some(UpToDate))) && Distinct(Bucket(b, Some(Degraded)));
    AppendDistinct(b.degraded, timedOut);
  }

  /** With or without membership sync: a name is listed twice exactly if some timed-out slot holder
      reports the target as booted. */
  lemma CountedOnceIff(owned: Owned, b: Buckets, timedOut: seq<Name>, target: Digest)
    requires Classified(b, owned, owned.Keys)
    requires Distinct(timedOut) && forall n | n in timedOut :: n in b.rebooting
    ensures forall n | n in b.degraded + timedOut + b.upToDate + timedOut :: n in owned
    ensures NoNameTwice(UnhealthySlots(owned, b.degraded + timedOut, b.upToDate, timedOut, target)) <==>
            forall n | n in timedOut :: !CountsDouble(owned[n], target)
  {
    ListsAreDistinct(owned, b, timedOut);
    SelectMembers(owned, b.degraded + timedOut, target, WasDegraded);
    SelectMembers(owned, b.upToDate, target, NotReady);
    SelectMembers(owned, timedOut, target, RebootTimeout);
    var x := Select(owned, b.degraded + timedOut, target, WasDegraded);
    var y := Select(owned, b.upToDate, target, NotReady);
    var z := Select(owned, timedOut, target, RebootTimeout);
    if n :| n in timedOut && CountsDouble(owned[n], target) {
      OverlapIsDouble(owned, b, timedOut, target, n);
      TwiceInBoth(x, y, z, Unhealthy(n, WasDegraded), Unhealthy(n, RebootTimeout));
    } else {
      forall n | n in timedOut
        ensures !Selected(owned[n], target, WasDegraded)
      {
        OverlapIsDouble(owned, b, timedOut, target, n);
      }
      AppendDistinctNames(x, y);
      AppendDistinctNames(x + y, z);
    }
  }

  lemma TwiceInBoth(x: seq<Unhealthy>, y: seq<Unhealthy>, z: seq<Unhealthy>, u: Unhealthy, v: Unhealthy)
    requires u in x && v in z && u.name == v.name
    ensures !NoNameTwice(x + y + z)
  {
    var i :| 0 <= i < |x| && x[i] == u;
    var j :| 0 <= j < |z| && z[j] == v;
    assert (x + y + z)[i] == u && (x + y + z)[|x| + |y| + j] == v;
  }

  /** After membership sync every desired image carries the target digest. Then no node is reported
      twice, although a timed-out node sits in both the degraded and the timed-out list; so a single
      bad node never reaches the threshold of two. */
  lemma UnhealthyCountsNodes(owned: Owned, b: Buckets, timedOut: seq<Name>, target: Digest)
    requires Classified(b, owned, owned.Keys)
    requires Distinct(timedOut) && forall n | n in timedOut :: n in b.rebooting
    requires forall n | n in owned :: owned[n].desired.Digested? && owned[n].desired.digest == target
    ensures forall n | n in b.degraded + timedOut + b.upToDate + timedOut :: n in owned
    ensures NoNameTwice(UnhealthySlots(owned, b.degraded + timedOut, b.upToDate, timedOut, target))
  {
    ListsAreDistinct(owned, b, timedOut);
    CountedOnceIff(owned, b, timedOut, target);
  }

  /** A slot gone bad: its node is back on the target but not freed, degraded on the target or with
      nothing booted, or has been rebooting for too long. */
  predicate BadSlot(bn: BootcNode, target: Digest, timeout: int, now: int) {
    && HasSlot(bn)
    && match ClassifyNode(bn)
       case Some(UpToDate) => true
       case Some(Degraded) => bn.status.booted.None? || InfoMatchesDigest(bn.status.booted, target)
       case Some(Rebooting) => RebootTimedOut(bn, timeout, now)
       case _ => false
  }

  function BadSlots(owned: Owned, target: Digest, timeout: int, now: int): set<Name> {
    set n | n in owned && BadSlot(owned[n], target, timeout, now)
  }

  function NamesOf(r: seq<Unhealthy>): set<Name> {
    set u | u in r :: u.name
  }

  lemma {:induction false} OneNameEach(r: seq<Unhealthy>)
    requires NoNameTwice(r)
    ensures |NamesOf(r)| == |r|
  {
    if r != [] {
      var k := |r| - 1;
      OneNameEach(r[..k]);
      assert r == r[..k] + [r[k]];
      assert NamesOf(r) == NamesOf(r[..k]) + {r[k].name};
    }
  }

  /** What is reported is exactly the slots gone bad, each once. */
  lemma UnhealthyAreBadSlots(owned: Owned, b: Buckets, target: Digest, timeout: int, now: int)
    requires Classified(b, owned, owned.Keys)
    requires forall n | n in b.rebooting :: n in owned
    requires forall n | n in owned :: owned[n].desired.Digested? && owned[n].desired.digest == target
    ensures var timedOut := Expired(owned, b.rebooting, timeout, now, true);
            && (forall n | n in b.degraded + timedOut + b.upToDate + timedOut :: n in owned)
            && var r := UnhealthySlots(owned, b.degraded + timedOut, b.upToDate, timedOut, target);
               NamesOf(r) == BadSlots(owned, target, timeout, now) && |r| == |NamesOf(r)|
  {
    var timedOut := Expired(owned, b.rebooting, timeout, now, true);
    assert Distinct(Bucket(b, Some(Rebooting)));
    ExpiredMembers(owned, b.rebooting, timeout, now, true);
    UnhealthyCountsNodes(owned, b, timedOut, target);
    var x := Select(owned, b.degraded + timedOut, target, WasDegraded);
    var y := Select(owned, b.upToDate, target, NotReady);
    var z := Select(owned, timedOut, target, RebootTimeout);
    SelectMembers(owned, b.degraded + timedOut, target, WasDegraded);
    SelectMembers(owned, b.upToDate, target, NotReady);
    SelectMembers(owned, timedOut, target, RebootTimeout);
    OneNameEach(x + y + z);
    forall n
      ensures n in NamesOf(x + y + z) <==> n in BadSlots(owned, target, timeout, now)
    {
      ReportedIffBad(owned, b, timedOut, target, timeout, now, x, y, z, n);
    }
  }

  lemma ReportedIffBad(owned: Owned, b: Buckets, timedOut: seq<Name>, target: Digest, timeout: int, now: int,
                       x: seq<Unhealthy>, y: seq<Unhealthy>, z: seq<Unhealthy>, n: Name)
    requires Classified(b, owned, owned.Keys)
    requires forall k :: k in timedOut <==> k in b.rebooting && k in owned && RebootTimedOut(owned[k], timeout, now)
    requires forall u :: u in x <==> u.reason == WasDegraded && u.name in b.degraded + timedOut && u.name in owned
                                     && Selected(owned[u.name], target, WasDegraded)
    requires forall u :: u in y <==> u.reason == NotReady && u.name in b.upToDate && u.name in owned
                                     && Selected(owned[u.name], target, NotReady)
    requires forall u :: u in z <==> u.reason == RebootTimeout && u.name in timedOut && u.name in owned
                                     && Selected(owned[u.name], target, RebootTimeout)
    ensures n in NamesOf(x + y + z) <==> n in BadSlots(owned, target, timeout, now)
  {
    assert n in b.upToDate <==> n in Bucket(b, Some(UpToDate));
    assert n in b.degraded <==> n in Bucket(b, Some(Degraded));
    assert n in b.rebooting <==> n in Bucket(b, Some(Rebooting));
    var u, v, w := Unhealthy(n, WasDegraded), Unhealthy(n, NotReady), Unhealthy(n, RebootTimeout);
    assert n in NamesOf(x + y + z) <==> u in x || v in y || w in z;
  }

  lemma {:induction false} ExpiredAgain(owned: Owned, owned': Owned, s: seq<Name>, timeout: int, now: int)
    requires forall n | n in s :: n in owned && n in owned' && owned'[n].status == owned[n].status
    ensures Expired(owned', s, timeout, now, true) == Expired(owned, s, timeout, now, true)
  {
    if s != [] { ExpiredAgain(owned, owned', s[..|s| - 1], timeout, now); }
  }

  lemma AppendDistinct(x: seq<Name>, y: seq<Name>)
    requires Distinct(x) && Distinct(y) && forall n :: !(n in x && n in y)
    ensures Distinct(x + y)
  {
    forall i, j | 0 <= i < j < |x + y|
      ensures (x + y)[i] != (x + y)[j]
    {
      if i < |x| <= j { assert x[i] in x && y[j - |x|] in y; }
    }
  }

  lemma AppendDistinctNames(x: seq<Unhealthy>, y: seq<Unhealthy>)
    requires NoNameTwice(x) && NoNameTwice(y)
    requires forall u, v | u in x && v in y :: u.name != v.name
    ensures NoNameTwice(x + y)
  {
  }

  /** Without the sync the count is of reports: one timed-out node whose BootcNode still desires an
      older digest, while the host already reports the new target as booted, is counted twice. */
  lemma UnsyncedNodeCountsTwice()
    ensures var bn := BootcNode(Some("p"), Digested("os", "old"), true, map[InRebootSlot := ""],
                                Status(Some(ImageInfo(Unparseable, "new")), None,
                                       Some(Condition(False, ReasonRebooting, 0)), false));
            && ClassifyNode(bn) == Some(Rebooting)
            && RebootTimedOut(bn, 1, 5)
            && |UnhealthySlots(map["n" := bn], ["n"], [], ["n"], "new")| == 2
  {
    var bn := BootcNode(Some("p"), Digested("os", "old"), true, map[InRebootSlot := ""],
                        Status(Some(ImageInfo(Unparseable, "new")), None,
                               Some(Condition(False, ReasonRebooting, 0)), false));
    var owned := map["n" := bn];
    var s := ["n"];
    assert s[..|s| - 1] == [];
    assert Select(owned, s, "new", WasDegraded) == [Unhealthy("n", WasDegraded)];
    assert Select(owned, s, "new", RebootTimeout) == [Unhealthy("n", RebootTimeout)];
  }

  // ---- Limits -------------------------------------------------------------------------------

  datatype MaxUnavailable = Unset | Count(value: int) | Percent(percent: int) | Malformed

  /** None is an invalid spec. Percentages of the pool are rounded up. */
  function ResolveMaxUnavailable(paused: bool, max: MaxUnavailable, nodes: nat): (r: Option<int>)
    ensures r.None? <==> !paused && max.Malformed?
    ensures paused ==> r == Some(0)
    ensures !paused && max.Unset? ==> r == Some(1)
    ensures !paused && max.Count? ==> r == Some(max.value)
    ensures !paused && max.Percent? ==> 100 * (r.value - 1) < max.percent * nodes <= 100 * r.value
  {
    if paused then Some(0)
    else match max
      case Unset => Some(1)
      case Count(v) => Some(v)
      case Percent(v) => Some(-((-(v * nodes)) / 100))
      case Malformed => None
  }

  // ---- Serving order ------------------------------------------------------------------------

  /** The byte-wise order of names. */
  predicate Before(a: Name, b: Name) {
    b != [] && (a == [] || a[0] < b[0] || (a[0] == b[0] && Before(a[1..], b[1..])))
  }

  lemma {:induction false} BeforeTrichotomy(a: Name, b: Name)
    ensures Before(a, b) || a == b || Before(b, a)
    ensures !(Before(a, b) && Before(b, a)) && !(Before(a, b) && a == b)
  {
    if a != [] && b != [] && a[0] == b[0] {
      BeforeTrichotomy(a[1..], b[1..]);
      assert a == [a[0]] + a[1..] && b == [b[0]] + b[1..];
    }
  }

  /** What the order is: a name comes before those it is a beginning of, and otherwise the first character
      that differs decides. */
  lemma {:induction false} BeforeIff(a: Name, b: Name, i: nat)
    requires i <= |a| && i <= |b| && a[..i] == b[..i]
    ensures i == |a| < |b| ==> Before(a, b)
    ensures i < |a| && i < |b| && a[i] < b[i] ==> Before(a, b)
    ensures i == |b| || (i < |a| && i < |b| && a[i] > b[i]) ==> !Before(a, b)
    decreases i
  {
    if i > 0 {
      assert a[0] == a[..i][0] == b[..i][0] == b[0];
      assert a[1..][..i - 1] == a[..i][1..] && b[1..][..i - 1] == b[..i][1..];
      BeforeIff(a[1..], b[1..], i - 1);
    }
  }

  lemma {:induction false} BeforeTransitive(a: Name, b: Name, c: Name)
    requires Before(a, b) && Before(b, c)
    ensures Before(a, c)
  {
    if a != [] && a[0] == b[0] == c[0] {
      BeforeTransitive(a[1..], b[1..], c[1..]);
    }
  }

  predicate InOrder(s: seq<Name>) {
    forall i, j | 0 <= i < j < |s| :: Before(s[i], s[j])
  }

  function Insert(n: Name, s: seq<Name>): seq<Name> {
    if s == [] || Before(n, s[0]) then [n] + s else [s[0]] + Insert(n, s[1..])
  }

  function Sort(s: seq<Name>): seq<Name> {
    if s == [] then [] else Insert(s[0], Sort(s[1..]))
  }

  lemma {:induction false} InsertMembers(n: Name, s: seq<Name>)
    ensures forall k :: k in Insert(n, s) <==> k == n || k in s
    ensures |Insert(n, s)| == |s| + 1
  {
    if s != [] && !Before(n, s[0]) {
      InsertMembers(n, s[1..]);
      assert s == [s[0]] + s[1..];
    }
  }

  lemma {:induction false} InsertInOrder(n: Name, s: seq<Name>)
    requires InOrder(s) && n !in s
    ensures InOrder(Insert(n, s))
  {
    if s != [] {
      if Before(n, s[0]) {
        forall j | 0 < j < |s|
          ensures Before(n, s[j])
        {
          BeforeTransitive(n, s[0], s[j]);
        }
      } else {
        BeforeTrichotomy(n, s[0]);
        InsertInOrder(n, s[1..]);
        InsertMembers(n, s[1..]);
        forall k | k in Insert(n, s[1..])
          ensures Before(s[0], k)
        {
          if k != n {
            var j :| 0 <= j < |s[1..]| && s[1..][j] == k;
          }
        }
      }
    }
  }

  lemma {:induction false} SortCorrect(s: seq<Name>)
    requires Distinct(s)
    ensures InOrder(Sort(s)) && |Sort(s)| == |s|
    ensures forall k :: k in Sort(s) <==> k in s
  {
    if s != [] {
      SortCorrect(s[1..]);
      InsertMembers(s[0], Sort(s[1..]));
      InsertInOrder(s[0], Sort(s[1..]));
      assert s == [s[0]] + s[1..];
    }
  }

  /** A set of names has only one listing in order, so the order of map iteration cannot matter. */
  lemma {:induction false} InOrderUnique(a: seq<Name>, b: seq<Name>)
    requires InOrder(a) && InOrder(b) && forall k :: k in a <==> k in b
    ensures a == b
  {
    assert a != [] ==> a[0] in a;
    assert b != [] ==> b[0] in b;
    if a != [] {
      FirstIsLeast(a, b);
      FirstIsLeast(b, a);
      BeforeTrichotomy(a[0], b[0]);
      forall k
        ensures k in a[1..] <==> k in b[1..]
      {
        TailMembers(a, k);
        TailMembers(b, k);
      }
      InOrderUnique(a[1..], b[1..]);
      assert a == [a[0]] + a[1..] && b == [b[0]] + b[1..];
    }
  }

  lemma FirstIsLeast(a: seq<Name>, b: seq<Name>)
    requires InOrder(b) && a != [] && b != [] && a[0] in b
    ensures a[0] == b[0] || Before(b[0], a[0])
  {
    var j :| 0 <= j < |b| && b[j] == a[0];
  }

  lemma TailMembers(a: seq<Name>, k: Name)
    requires InOrder(a) && a != []
    ensures k in a[1..] <==> k in a && k != a[0]
  {
    if k in a[1..] {
      var j :| 0 <= j < |a[1..]| && a[1..][j] == k;
      assert Before(a[0], a[j + 1]);
      BeforeTrichotomy(a[0], k);
    }
    assert a == [a[0]] + a[1..];
  }

  /** Slotted and unslotted staged nodes, each by name. */
  method PartitionSlottedNodes(staged: seq<Name>, owned: Owned) returns (slotted: seq<Name>, unslotted: seq<Name>)
    requires Distinct(staged) && forall n | n in staged :: n in owned
    ensures InOrder(slotted) && InOrder(unslotted)
    ensures forall n :: n in slotted <==> n in staged && HasSlot(owned[n])
    ensures forall n :: n in unslotted <==> n in staged && !HasSlot(owned[n])
    ensures |slotted| + |unslotted| == |staged|
  {
    slotted, unslotted := [], [];
    for i := 0 to |staged|
      invariant Distinct(slotted) && Distinct(unslotted)
      invariant forall n :: n in slotted <==> n in staged[..i] && HasSlot(owned[n])
      invariant forall n :: n in unslotted <==> n in staged[..i] && !HasSlot(owned[n])
      invariant |slotted| + |unslotted| == i
    {
      assert staged[..i + 1] == staged[..i] + [staged[i]];
      if HasSlot(owned[staged[i]]) {
        slotted := slotted + [staged[i]];
      } else {
        unslotted := unslotted + [staged[i]];
      }
    }
    assert staged[..|staged|] == staged;
    SortCorrect(slotted);
    SortCorrect(unslotted);
    slotted, unslotted := Sort(slotted), Sort(unslotted);
  }
}
