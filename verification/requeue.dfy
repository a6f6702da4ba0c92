/** When a pool is looked at again, and which stalled drains are warned about on the way. */
module Requeue {
  import opened Types
  import opened Classify
  import R = RolloutStates

  function EarlierRequeue(current: int, candidate: int): int {
    if candidate <= 0 then current
    else if current <= 0 || candidate < current then candidate
    else current
  }

  /** `w` is the least positive element of `xs`, or 0 if there is none. */
  ghost predicate LeastPositive(w: int, xs: set<int>) {
    if exists x | x in xs :: x > 0 then w > 0 && w in xs && forall x | x in xs && x > 0 :: w <= x
    else w == 0
  }

  lemma EarlierIsLeast(v: int, w: int, xs: set<int>, ys: set<int>)
    requires LeastPositive(v, xs) && LeastPositive(w, ys)
    ensures LeastPositive(EarlierRequeue(v, w), xs + ys)
  {
    var e := EarlierRequeue(v, w);
    if e > 0 {
      assert e in xs + ys;
      assert v <= 0 ==> forall x | x in xs :: x <= 0;
      assert w <= 0 ==> forall x | x in ys :: x <= 0;
    } else {
      assert forall x | x in xs + ys :: x <= 0;
    }
  }

  // ---- Stalled drains -----------------------------------------------------------------------

  const STALL_THRESHOLD := 300

  datatype Entry = Entry(start: int, stalled: bool)

  type Drains = map<Name, Entry>

  function Remaining(e: Entry, now: int): int {
    STALL_THRESHOLD - (now - e.start)
  }

  predicate Stalls(e: Entry, now: int) {
    !e.stalled && Remaining(e, now) <= 0
  }

  function Marked(drains: Drains, now: int): Drains {
    map n | n in drains :: if Stalls(drains[n], now) then drains[n].(stalled := true) else drains[n]
  }

  /** The drains a pass warns about: those it finds past the threshold first, if it owns their node. */
  function Warned(drains: Drains, owned: set<Name>, now: int): set<Name> {
    set n | n in drains && n in owned && Stalls(drains[n], now)
  }

  function TimeToStall(drains: Drains, now: int): set<int> {
    set n | n in drains && !drains[n].stalled :: Remaining(drains[n], now)
  }

  /** A pass as one drain sees it: whether it owns the drained node, and its time. */
  datatype Sighting = Sighting(owns: bool, now: int)

  function EntryAfter(e: Entry, now: int): Entry {
    if Stalls(e, now) then e.(stalled := true) else e
  }

  /** How often a drain is warned about over a sequence of passes. */
  function Warnings(e: Entry, passes: seq<Sighting>): nat
    decreases |passes|
  {
    if passes == [] then 0
    else (if passes[0].owns && Stalls(e, passes[0].now) then 1 else 0) + Warnings(EntryAfter(e, passes[0].now), passes[1..])
  }

  /** The first pass, if any, that finds the drain past the threshold. */
  function FirstStall(e: Entry, passes: seq<Sighting>): Option<Sighting> {
    if passes == [] then None
    else if Stalls(e, passes[0].now) then Some(passes[0])
    else FirstStall(e, passes[1..])
  }

  /** Over any sequence of passes, of whichever pools, a drain is warned about at most once: exactly if
      the first pass that finds it past the threshold owns its node. If that is the pass of another pool,
      nobody ever hears of it. */
  lemma {:induction false} WarnedAtMostOnce(e: Entry, passes: seq<Sighting>)
    ensures Warnings(e, passes) ==
            if !e.stalled && FirstStall(e, passes).Some? && FirstStall(e, passes).value.owns then 1 else 0
    decreases |passes|
  {
    if passes != [] {
      WarnedAtMostOnce(EntryAfter(e, passes[0].now), passes[1..]);
      if EntryAfter(e, passes[0].now).stalled { StalledStaysQuiet(EntryAfter(e, passes[0].now), passes[1..]); }
    }
  }

  lemma {:induction false} StalledStaysQuiet(e: Entry, passes: seq<Sighting>)
    requires e.stalled
    ensures Warnings(e, passes) == 0 && FirstStall(e, passes).None?
    decreases |passes|
  {
    if passes != [] { StalledStaysQuiet(e, passes[1..]); }
  }

  class Table {
    var drains: Drains

    constructor (d: Drains)
      ensures drains == d
    {
      drains := d;
    }

    /** Marks and reports stalled drains, and says when the next one could be. */
    method RecordDrainStalls(owned: set<Name>, now: int) returns (next: int, warned: set<Name>)
      modifies this
      ensures drains == Marked(old(drains), now) && warned == Warned(old(drains), owned, now)
      ensures drains.Keys == old(drains).Keys
      ensures forall n | n in drains ::
                && drains[n].start == old(drains)[n].start
                && (drains[n].stalled <==> old(drains)[n].stalled || now >= drains[n].start + 300)
      ensures forall n :: n in warned <==>
                n in drains && n in owned && !old(drains)[n].stalled && now >= drains[n].start + 300
      ensures LeastPositive(next, TimeToStall(old(drains), now))
      ensures forall n | n in drains && !drains[n].stalled :: 0 < next <= drains[n].start + 300 - now
    {
      next, warned := 0, {};
      var todo := drains.Keys;
      ghost var done: set<Name> := {};
      while todo != {}
        invariant todo == old(drains).Keys - done && done <= old(drains).Keys && drains.Keys == old(drains).Keys
        invariant forall n | n in old(drains) ::
                    drains[n] == if n in done then Marked(old(drains), now)[n] else old(drains)[n]
        invariant warned == Warned(old(drains), owned, now) * done
        invariant LeastPositive(next, TimeToStall(Only(old(drains), done), now))
        decreases todo
      {
        var n :| n in todo;
        var e := drains[n];
        TimeToStallStep(old(drains), done, n, now, next);
        if !e.stalled {
          var remaining := Remaining(e, now);
          if remaining > 0 {
            next := EarlierRequeue(next, remaining);
          } else {
            drains := drains[n := e.(stalled := true)];
            if n in owned { warned := warned + {n}; }
          }
        }
        todo, done := todo - {n}, done + {n};
      }
      assert Only(old(drains), done) == old(drains);
      assert drains == Marked(old(drains), now);
      forall n | n in drains && !drains[n].stalled
        ensures 0 < next <= drains[n].start + 300 - now
      {
        assert Remaining(old(drains)[n], now) in TimeToStall(old(drains), now);
      }
    }
  }

  ghost function Only(drains: Drains, names: set<Name>): Drains {
    map n | n in drains && n in names :: drains[n]
  }

  lemma TimeToStallStep(drains: Drains, done: set<Name>, n: Name, now: int, next: int)
    requires n in drains && n !in done && LeastPositive(next, TimeToStall(Only(drains, done), now))
    ensures var r := if drains[n].stalled then 0 else Remaining(drains[n], now);
            LeastPositive(EarlierRequeue(next, r), TimeToStall(Only(drains, done + {n}), now))
  {
    var x, y := TimeToStall(Only(drains, done), now), TimeToStall(Only(drains, done + {n}), now);
    var e := drains[n];
    assert y == if e.stalled then x else x + {Remaining(e, now)} by {
      forall r
        ensures r in y <==> r in x || (!e.stalled && r == Remaining(e, now))
      {
        if r in x {
          var k :| k in Only(drains, done) && !drains[k].stalled && Remaining(drains[k], now) == r;
          assert k in Only(drains, done + {n}) && Only(drains, done + {n})[k] == drains[k];
        }
        if r in y && !(!e.stalled && r == Remaining(e, now)) {
          var k :| k in Only(drains, done + {n}) && !drains[k].stalled && Remaining(drains[k], now) == r;
          assert k in Only(drains, done) && Only(drains, done)[k] == drains[k];
        }
        if !e.stalled && r == Remaining(e, now) {
          assert n in Only(drains, done + {n}) && Only(drains, done + {n})[n] == e;
        }
      }
    }
    if !e.stalled {
      var r := Remaining(e, now);
      if r > 0 {
        assert LeastPositive(r, {r});
        EarlierIsLeast(next, r, x, {r});
      } else {
        assert LeastPositive(0, {r});
        EarlierIsLeast(next, 0, x, {r});
      }
    }
  }

  // ---- The whole requeue --------------------------------------------------------------------

  /** A reboot that may still time out. */
  predicate Awaited(bn: BootcNode, timeout: int, now: int) {
    timeout > 0 && ClassifyNode(bn) == Some(Rebooting) && !R.RebootTimedOut(bn, timeout, now)
  }

  /** The time left to the reboots that may still time out; none if the timeout is off. */
  function Deadlines(owned: R.Owned, timeout: int, now: int): set<int> {
    set n | n in owned && Awaited(owned[n], timeout, now) :: R.TimeLeft(owned[n], timeout, now)
  }

  /** What the timeout filter returns is the earliest of them. */
  lemma WakeUpIsLeast(owned: R.Owned, b: R.Buckets, timeout: int, now: int, w: int)
    requires R.Classified(b, owned, owned.Keys) && forall n | n in b.rebooting :: n in owned
    requires forall n | n in R.Expired(owned, b.rebooting, timeout, now, false) :: n in owned
    requires if timeout <= 0 then w == 0
             else R.IsWakeUp(owned, R.Expired(owned, b.rebooting, timeout, now, false), timeout, now, w)
    ensures LeastPositive(w, Deadlines(owned, timeout, now))
  {
    var s, xs := R.Expired(owned, b.rebooting, timeout, now, false), Deadlines(owned, timeout, now);
    R.ExpiredMembers(owned, b.rebooting, timeout, now, false);
    forall n
      ensures timeout > 0 ==> (n in s <==> n in owned && Awaited(owned[n], timeout, now))
    {
      assert n in R.Bucket(b, Some(Rebooting)) <==> n in owned && ClassifyNode(owned[n]) == Some(Rebooting);
    }
    if w > 0 {
      var n :| n in s && R.TimeLeft(owned[n], timeout, now) == w;
      assert w in xs;
    }
    forall x | x in xs && x > 0
      ensures 0 < w <= x
    {
      var n :| n in owned && Awaited(owned[n], timeout, now) && R.TimeLeft(owned[n], timeout, now) == x;
    }
  }

  /** Deadlines are read from image and status only. */
  lemma DeadlinesKept(owned: R.Owned, owned': R.Owned, timeout: int, now: int)
    requires owned'.Keys == owned.Keys
    requires forall n | n in owned :: owned'[n].desired == owned[n].desired && owned'[n].status == owned[n].status
    ensures Deadlines(owned', timeout, now) == Deadlines(owned, timeout, now)
  {
    forall x
      ensures x in Deadlines(owned', timeout, now) <==> x in Deadlines(owned, timeout, now)
    {
      if x in Deadlines(owned, timeout, now) {
        var n :| n in owned && Awaited(owned[n], timeout, now) && R.TimeLeft(owned[n], timeout, now) == x;
        assert n in owned' && Awaited(owned'[n], timeout, now) && R.TimeLeft(owned'[n], timeout, now) == x;
      }
      if x in Deadlines(owned', timeout, now) {
        var n :| n in owned' && Awaited(owned'[n], timeout, now) && R.TimeLeft(owned'[n], timeout, now) == x;
        assert n in owned && Awaited(owned[n], timeout, now) && R.TimeLeft(owned[n], timeout, now) == x;
      }
    }
  }

  /** A reconcile comes back at the earliest of: the next tag resolution, the next drain that could
      stall, the next reboot that could time out, the next poll of Karpenter (0 for what is not due). */
  lemma RequeueIsEarliest(resolve: nat, poll: nat, drains: Drains, next: int,
                          owned: R.Owned, timeout: int, now: int, w: int)
    requires LeastPositive(next, TimeToStall(drains, now)) && LeastPositive(w, Deadlines(owned, timeout, now))
    ensures LeastPositive(EarlierRequeue(EarlierRequeue(resolve, next), EarlierRequeue(w, poll)),
                          ({resolve} + TimeToStall(drains, now)) + (Deadlines(owned, timeout, now) + {poll}))
  {
    EarlierIsLeast(resolve, next, {resolve}, TimeToStall(drains, now));
    EarlierIsLeast(w, poll, Deadlines(owned, timeout, now), {poll});
    EarlierIsLeast(EarlierRequeue(resolve, next), EarlierRequeue(w, poll),
                   {resolve} + TimeToStall(drains, now), Deadlines(owned, timeout, now) + {poll});
  }
}
