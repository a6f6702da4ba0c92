/** The controller's passes as code. Every API call first lets the environment act, and may be
    refused, or be applied while the caller sees an error. The code is proved to take only steps of
    the protocol, so all that holds of its runs holds of the code, wherever a pass stops. */
module Controller {
  import opened Types
  import opened Slot
  import opened Classify
  import opened Cluster
  import opened Invariants
  import opened Passes
  import opened Progress
  import opened Completion
  import opened Advance
  import B = Budget
  import Q = Requeue
  import R = RolloutStates
  import S = Safety
  import T = Taints

  /** Every pass rolled out the target of its pool. */
  ghost predicate BegunFor(T: B.Targets, acts: seq<Action>, places: set<nat>) {
    forall i | i in places && i < |acts| && acts[i].Begin? :: acts[i].pool in T && T[acts[i].pool] == acts[i].image
  }

  lemma StillBegunFor(T: B.Targets, acts0: seq<Action>, places0: set<nat>, acts: seq<Action>, places: set<nat>,
                      p: Pool, image: Ref, limit: Option<int>)
    requires BegunFor(T, acts0, places0) && Located(acts0, places0) && acts0 <= acts && p in T && T[p] == image
    requires Since(acts, places0, places, OfReconcile(p, image, limit))
    ensures BegunFor(T, acts, places)
  {
    forall i | i in places && i < |acts| && acts[i].Begin?
      ensures acts[i].pool in T && T[acts[i].pool] == acts[i].image
    {
      if i in places0 { assert acts[i] == acts0[i]; } else { assert OfReconcile(p, image, limit)(acts[i]); }
    }
  }

  /** A reconcile; with `crash`, the controller stops and starts again at the first call that fails, or
      when it is through. */
  datatype Request = Request(pool: Pool, image: Ref, paused: bool, max: R.MaxUnavailable, timeout: int, now: int, crash: bool)

  class Operator {
    var s: State
    var turns: seq<Turn>
    ghost const origin: State
    ghost var acts: seq<Action>
    ghost var trail: seq<State>
    /** API calls that were not accepted, as far as the caller could tell. */
    ghost var faults: nat
    /** Where in the run the milestones of passes are: all steps but those on nodes and of others. */
    ghost var places: set<nat>

    /** The state is the end of a run of the protocol from a good state. */
    ghost predicate Valid()
      reads this
    {
      Inv(origin) && IsRun(origin, acts, trail) && s == trail[|acts|] && Located(acts, places)
    }

    constructor (s0: State, turns0: seq<Turn>)
      requires Inv(s0)
      ensures Valid() && s == s0 && acts == [] && origin == s0 && faults == 0 && places == {}
    {
      s, turns, origin, acts, trail, faults, places := s0, turns0, s0, [], [s0], 0, {};
    }

    method Perform(a: Action)
      requires Valid() && Enabled(s, a)
      modifies this
      ensures Valid() && s == Apply(old(s), a) && acts == old(acts) + [a] && faults == old(faults)
      ensures places == if Milestone(a) then old(places) + {|old(acts)|} else old(places)
    {
      RunGrows(origin, acts, trail, a);
      s := Apply(s, a);
      if Milestone(a) { places := places + {|acts|}; }
      acts, trail := acts + [a], trail + [s];
    }

    method Environment(events: seq<Action>)
      requires Valid()
      modifies this
      ensures Valid() && old(acts) <= acts && old(faults) <= faults && places == old(places)
      ensures Kept(old(s), s, {}) && s.pass == old(s).pass
    {
      for i := 0 to |events|
        invariant Valid() && old(acts) <= acts && old(faults) <= faults && places == old(places)
        invariant Kept(old(s), s, {}) && s.pass == old(s).pass
      {
        if Environmental(events[i]) && Enabled(s, events[i]) {
          ghost var t := s;
          EnvKeeps(s, events[i]);
          Perform(events[i]);
          KeptTrans(old(s), t, s, {}, {});
        }
      }
    }

    /** The time until the server handles a call. */
    method Wait() returns (reply: Reply)
      requires Valid()
      modifies this
      ensures Valid() && old(acts) <= acts && old(faults) <= faults && places == old(places)
      ensures Kept(old(s), s, {}) && s.pass == old(s).pass
      ensures reply == NextReply(old(turns))
    {
      var turn := Turn([], Accepted);
      if turns != [] {
        turn := turns[0];
        turns := turns[1..];
      }
      Environment(turn.events);
      reply := turn.reply;
    }

    /** One API call that performs `op` on node `n`. `t` is the state the server saw. */
    method Call(n: Name, op: Op) returns (ok: bool, ghost t: State)
      requires Valid() && n in s.members && CodeGuard(s.pass, s.members[n].local, s.members[n].drain, op)
      modifies this
      ensures Valid() && old(acts) <= acts && old(faults) <= faults && places == old(places)
      ensures !ok ==> faults > old(faults)
      ensures Kept(old(s), t, {}) && t.pass == old(s).pass && n in t.members
      ensures ok ==> Enabled(t, On(n, op)) && s == Apply(t, On(n, op))
      ensures !ok ==> s == t || (Enabled(t, On(n, op)) && s == Apply(t, On(n, op)))
      ensures ok <==> NextReply(old(turns)) == Accepted && ApiGuard(t.pass, t.members[n], op)
      ensures NextReply(old(turns)) == Refused ==> s == t
      ensures Kept(old(s), s, {n})
      ensures ok ==> Answered(old(s), t, s, n, op)
    {
      var reply := Wait();
      t := s;
      CheckOutlivesEnvironment(origin, acts, trail, old(s), n, op);
      if reply == Refused || !ApiGuard(s.pass, s.members[n], op) {
        faults := faults + 1;
        return false, t;
      }
      OpKeepsOthers(s, n, op);
      Perform(On(n, op));
      KeptTrans(old(s), t, s, {}, {n});
      CallAnswered(old(s), t, n, op);
      ok := reply == Accepted;
      if !ok { faults := faults + 1; }
    }

    // ---- Membership -------------------------------------------------------------------------

    method EnsureManagedLabel(n: Name) returns (ok: bool)
      requires Valid() && n in s.members && CodeGuard(s.pass, s.members[n].local, s.members[n].drain, LabelOn)
      modifies this
      ensures Valid() && old(acts) <= acts && old(faults) <= faults && places == old(places)
      ensures Kept(old(s), s, {n}) && n in s.members
      ensures !ok ==> faults > old(faults)
      ensures ok ==> s.pass == old(s).pass && DrainKept(old(s).members[n].drain, s.members[n].drain)
      ensures ok ==> var l, l' := old(s).members[n].local, s.members[n].local;
                     && l' == l.(node := l'.node) && l'.node.Some?
                     && l'.node.value == l.node.value.(managed := if l.node.value.managed == Unlabelled then ByOperator
                                                                  else l.node.value.managed)
      ensures old(s).members[n].local.node.value.managed != Unlabelled ==> ok && s == old(s)
    {
      if s.members[n].local.node.value.managed != Unlabelled {
        NothingKept(s);
        return true;
      }
      ghost var t;
      ok, t := Call(n, LabelOn);
    }

    /** Creates the BootcNode unless there is one; a lost reply is an error like any other. */
    method CreateBootcNode(n: Name) returns (ok: bool, taken: bool)
      requires Valid() && n in s.members && CodeGuard(s.pass, s.members[n].local, s.members[n].drain, Create)
      modifies this
      ensures Valid() && old(acts) <= acts && old(faults) <= faults && places == old(places)
      ensures Kept(old(s), s, {n}) && n in s.members
      ensures !ok ==> faults > old(faults)
      ensures ok ==> s.pass == old(s).pass && DrainKept(old(s).members[n].drain, s.members[n].drain)
      ensures ok ==> (taken <==> old(s).members[n].bn.Some?)
      ensures ok && taken ==> MemberKept(old(s).members[n], s.members[n])
      ensures ok && !taken ==>
                s.members[n].local == Remember(s.pass, old(s).members[n].local, None, NoRef, Create)
    {
      var reply := Wait();
      assert MemberKept(old(s).members[n], s.members[n]);
      taken := s.members[n].bn.Some?;
      if reply != Accepted { faults := faults + 1; }
      if reply == Refused || taken {
        return reply == Accepted, taken;
      }
      ghost var t := s;
      CheckOutlivesEnvironment(origin, acts, trail, old(s), n, Create);
      CallAnswered(old(s), s, n, Create);
      OpKeepsOthers(s, n, Create);
      Perform(On(n, Create));
      KeptTrans(old(s), t, s, {}, {n});
      ok := reply == Accepted;
    }

    /** Brings one listed node into the pool, or finds the pool that already has it. */
    method SyncNode(n: Name) returns (ok: bool, rival: Option<Pool>)
      requires Valid() && n in s.members && s.pass.Busy? && s.pass.stage == Syncing
      requires s.members[n].local.listed && s.members[n].local.node.Some? && s.members[n].local.restore == Untouched
      modifies this
      ensures Valid() && old(acts) <= acts && old(faults) <= faults && places == old(places)
      ensures Kept(old(s), s, {n}) && n in s.members
      ensures !ok ==> faults > old(faults)
      ensures ok ==> s.pass == old(s).pass && SyncedNode(s.pass, old(s).members[n], s.members[n])
      ensures ok ==> rival == Rival(old(s).members[n])
    {
      rival := None;
      NothingKept(s);
      if s.members[n].local.own.None? {
        var taken;
        ok, taken := CreateBootcNode(n);
        if !ok { return; }
        if taken { return true, s.members[n].bn.value.owner; }
      }
      ghost var s1 := s;
      ok := EnsureManagedLabel(n);
      KeptTrans(old(s), s1, s, {n}, {n});
      if !ok || s.members[n].local.own.value.desired == s.pass.image { return; }
      ghost var s2 := s;
      ghost var t;
      ok, t := Call(n, Sync);
      KeptTrans(old(s), s2, s, {n}, {n});
    }

    method SyncListed() returns (ok: bool, rivals: set<Pool>)
      requires Valid() && s.pass.Busy? && s.pass.stage == Syncing && FreshLists(s)
      modifies this
      ensures Valid() && old(acts) <= acts && old(faults) <= faults && places == old(places)
      ensures !ok ==> faults > old(faults)
      ensures ok ==> s.pass == old(s).pass && Kept(old(s), s, ListedNames(old(s)))
      ensures ok ==> forall n | n in ListedNames(old(s)) ::
                       n in s.members && SyncedNode(s.pass, old(s).members[n], s.members[n])
      ensures ok ==> rivals == Rivals(old(s), old(s).members.Keys)
    {
      var todo := ListedNames(s);
      ghost var done: set<Name> := {};
      rivals := {};
      NothingKept(s);
      while todo != {}
        invariant Valid() && old(acts) <= acts && old(faults) <= faults && places == old(places)
        invariant todo !! done && done + todo == ListedNames(old(s))
        invariant Kept(old(s), s, done) && s.pass == old(s).pass && rivals == Rivals(old(s), done)
        invariant forall n | n in done :: n in s.members && SyncedNode(s.pass, old(s).members[n], s.members[n])
        decreases todo
      {
        var n :| n in todo;
        ghost var s1 := s;
        assert MemberKept(old(s).members[n], s.members[n]);
        var rival;
        ok, rival := SyncNode(n);
        if !ok { return; }
        KeptTrans(old(s), s1, s, done, {n});
        SyncedOnward(old(s), s1, s, done, n);
        RivalsStep(old(s), done, n);
        rivals := rivals + if rival.Some? then {rival.value} else {};
        todo, done := todo - {n}, done + {n};
      }
      RivalsAmongListed(old(s));
      ok := true;
    }

    method ReadDeparting(n: Name) returns (ok: bool)
      requires Valid() && n in s.members && Leaving(s.pass, s.members[n].local) && s.members[n].local.restore == Untouched
      modifies this
      ensures Valid() && old(acts) <= acts && old(faults) <= faults && places == old(places)
      ensures Kept(old(s), s, {n})
      ensures !ok ==> faults > old(faults)
      ensures ok ==> StillLeaving(old(s), s, n)
      ensures ok ==> var l := s.members[n].local; l.restore == NodeMissing || (l.restore == Untouched && l.node.Some?)
    {
      var reply := Wait();
      if reply != Accepted {
        faults := faults + 1;
        return false;
      }
      ghost var s1 := s;
      assert MemberKept(old(s).members[n], s1.members[n]);
      Note(n, if s.members[n].node.Some? then Read else ReadMissing);
      KeptTrans(old(s), s1, s, {}, {n});
      ok := true;
    }

    method RemoveManagedLabel(n: Name) returns (ok: bool)
      requires Valid() && n in s.members && CodeGuard(s.pass, s.members[n].local, s.members[n].drain, LabelOff)
      modifies this
      ensures Valid() && old(acts) <= acts && old(faults) <= faults && places == old(places)
      ensures Kept(old(s), s, {n})
      ensures !ok ==> faults > old(faults)
      ensures ok ==> StillLeaving(old(s), s, n) && s.members[n].local.restore == LabelDone
      ensures old(s).members[n].local.node.value.managed == Unlabelled ==> ok
    {
      if s.members[n].local.node.value.managed == Unlabelled {
        Note(n, LabelOff);
        return true;
      }
      ghost var t;
      ok, t := Call(n, LabelOff);
    }

    /** Undoes cordon, fences and label of a Node that stays. */
    method RestoreDeparting(n: Name) returns (ok: bool)
      requires Valid() && n in s.members && Leaving(s.pass, s.members[n].local)
      requires CodeGuard(s.pass, s.members[n].local, s.members[n].drain, RestoreNode)
      modifies this
      ensures Valid() && old(acts) <= acts && old(faults) <= faults && places == old(places)
      ensures !ok ==> faults > old(faults)
      ensures ok ==> Kept(old(s), s, {n}) && StillLeaving(old(s), s, n) && s.members[n].local.restore == LabelDone
    {
      ok := RestoreTheNode(n);
      if !ok { return; }
      ghost var s1 := s;
      ok := RestoreTheClaim(n);
      if !ok { return; }
      KeptTrans(old(s), s1, s, {n}, {n});
      ghost var s2 := s;
      ok := RemoveManagedLabel(n);
      KeptTrans(old(s), s2, s, {n}, {n});
    }

    /** What comes before the BootcNode of a departing node may be deleted. */
    method CleanUpDeparting(n: Name) returns (ok: bool)
      requires Valid() && n in s.members && Leaving(s.pass, s.members[n].local) && s.members[n].local.restore == Untouched
      requires s.members[n].drain.None?
      modifies this
      ensures Valid() && old(acts) <= acts && old(faults) <= faults && places == old(places)
      ensures !ok ==> faults > old(faults)
      ensures ok ==> Kept(old(s), s, {n}) && StillLeaving(old(s), s, n)
      ensures ok ==> CodeGuard(s.pass, s.members[n].local, s.members[n].drain, Delete)
    {
      ok := ReadDeparting(n);
      if !ok { return; }
      ghost var s1 := s;
      var l := s.members[n].local;
      if l.restore == Untouched && !l.node.value.deleting {
        ok := RestoreDeparting(n);
        if !ok { return; }
        KeptTrans(old(s), s1, s, {n}, {n});
      }
    }

    method StopDrain(n: Name)
      requires Valid() && n in s.members && Leaving(s.pass, s.members[n].local)
      modifies this
      ensures Valid() && old(acts) <= acts && old(faults) <= faults && places == old(places)
      ensures Kept(old(s), s, {n})
      ensures s.pass == old(s).pass && n in s.members && s.members[n].drain.None?
      ensures s.members[n].local == old(s).members[n].local
    {
      if s.members[n].drain.None? {
        NothingKept(s);
        return;
      }
      Note(n, CancelDrain);
      CancelledOnly(old(s), s, n);
    }

    method DeleteBootcNode(n: Name) returns (ok: bool)
      requires Valid() && n in s.members && CodeGuard(s.pass, s.members[n].local, s.members[n].drain, Delete)
      modifies this
      ensures Valid() && old(acts) <= acts && old(faults) <= faults && places == old(places)
      ensures !ok ==> faults > old(faults)
      ensures ok ==> Kept(old(s), s, {n}) && s.pass == old(s).pass && n in s.members && Unmanaged(s.members[n])
    {
      ghost var t;
      ok, t := Call(n, Delete);
      if ok { DeletedIsUnmanaged(t, n); }
    }

    /** Takes a node out of the pool: stops its drain, undoes the operator's effects, deletes the
        BootcNode last. */
    method RemoveBootcNode(n: Name) returns (ok: bool)
      requires Valid() && n in s.members && Leaving(s.pass, s.members[n].local) && s.members[n].local.restore == Untouched
      modifies this
      ensures Valid() && old(acts) <= acts && old(faults) <= faults && places == old(places)
      ensures !ok ==> faults > old(faults)
      ensures ok ==> Kept(old(s), s, {n}) && s.pass == old(s).pass && n in s.members && Unmanaged(s.members[n])
    {
      StopDrain(n);
      ghost var s1 := s;
      ok := CleanUpDeparting(n);
      if !ok { return; }
      KeptTrans(old(s), s1, s, {n}, {n});
      ghost var s2 := s;
      ok := DeleteBootcNode(n);
      if ok { KeptTrans(old(s), s2, s, {n}, {n}); }
    }

    method RemoveAll(names: set<Name>) returns (ok: bool)
      requires Valid() && forall n | n in names ::
                 n in s.members && Leaving(s.pass, s.members[n].local) && s.members[n].local.restore == Untouched
      modifies this
      ensures Valid() && old(acts) <= acts && old(faults) <= faults && places == old(places)
      ensures !ok ==> faults > old(faults)
      ensures ok ==> && Kept(old(s), s, names) && s.pass == old(s).pass
                     && forall n | n in names :: n in s.members && Unmanaged(s.members[n])
    {
      var todo := names;
      ghost var done: set<Name> := {};
      NothingKept(s);
      while todo != {}
        invariant Valid() && old(acts) <= acts && old(faults) <= faults && places == old(places)
        invariant todo !! done && done + todo == names
        invariant Kept(old(s), s, done) && s.pass == old(s).pass
        invariant forall n | n in done :: n in s.members && Unmanaged(s.members[n])
        decreases todo
      {
        var n :| n in todo;
        ghost var s1 := s;
        assert MemberKept(old(s).members[n], s.members[n]);
        ok := RemoveBootcNode(n);
        if !ok { return; }
        KeptTrans(old(s), s1, s, done, {n});
        RemovedOnward(old(s), s1, s, done, n);
        todo, done := todo - {n}, done + {n};
      }
      ok := true;
    }

    /** Adopts, retargets and removes nodes until the owned ones are exactly the listed ones that no
        other pool has; then the rollout may begin. */
    method SyncMembership() returns (ok: bool, rivals: set<Pool>)
      requires Valid() && s.pass.Busy? && s.pass.stage == Syncing && FreshLists(s)
      modifies this
      ensures Valid() && old(acts) <= acts && old(faults) <= faults
      ensures Since(acts, old(places), places, Only(Roll))
      ensures !ok ==> faults > old(faults)
      ensures ok ==> s.pass == old(s).pass.(stage := Rolling) && AllUntouched(s)
      ensures ok ==> RolledAt(acts, |old(acts)|, |acts|)
      ensures ok ==> forall n | n in old(s).members ::
                       n in s.members && JoinedNode(old(s).pass, old(s).members[n], s.members[n])
      ensures ok ==> forall n | n in s.members && n !in old(s).members :: Blank(s.members[n])
      ensures ok ==> rivals == Rivals(old(s), old(s).members.Keys)
    {
      ok, rivals := SyncListed();
      if !ok { return; }
      ghost var s1 := s;
      var departed := DepartedNames(s);
      DepartedUntouched(old(s), s1);
      ok := RemoveAll(departed);
      if !ok { return; }
      JoinedBoth(old(s), s1, s);
      JoinedMayRoll(old(s), s);
      Perform(Roll);
    }

    // ---- Assigning a slot -------------------------------------------------------------------

    /** Records slot and ownership on the BootcNode, before anything is done to Node or claim. */
    method RecordSlot(n: Name) returns (ok: bool)
      requires Valid() && n in s.members
      requires CodeGuard(s.pass, s.members[n].local, s.members[n].drain, MarkSlot)
      modifies this
      ensures Valid() && old(acts) <= acts && old(faults) <= faults && places == old(places)
      ensures Kept(old(s), s, {n}) && n in s.members
      ensures !ok ==> faults > old(faults)
      ensures ok ==> SlotTaken(old(s), s, n) && ReadyToFence(s, n)
      ensures old(Recorded(s.members[n].local)) ==> ok && s == old(s)
    {
      if !RecordNeeded(s.members[n].local) {
        AlreadyRecorded(s, n);
        return true;
      }
      ghost var t;
      ok, t := Call(n, MarkSlot);
      if ok { SlotRecorded(old(s), t, s, n); }
    }

    method FenceTheClaim(n: Name) returns (ok: bool)
      requires Valid() && ReadyToFence(s, n)
      modifies this
      ensures Valid() && old(acts) <= acts && old(faults) <= faults && places == old(places)
      ensures Kept(old(s), s, {n}) && n in s.members
      ensures !ok ==> faults > old(faults)
      ensures ok ==> ReadyToFence(s, n) && OnlyFenced(old(s), s, n) && ClaimFenced(s.members[n].local)
      ensures old(ClaimFenced(s.members[n].local)) ==> ok && s == old(s)
    {
      var l := s.members[n].local;
      FencedAlready(l);
      if !l.claim.Found? || FencedClaim(l.claim.claim) == l.claim.claim {
        return true;
      }
      ghost var t;
      ok, t := Call(n, FenceClaim);
      if ok { ClaimIsFenced(old(s), t, s, n); }
    }

    method FenceTheNode(n: Name) returns (ok: bool)
      requires Valid() && ReadyToFence(s, n) && ClaimFenced(s.members[n].local)
      modifies this
      ensures Valid() && old(acts) <= acts && old(faults) <= faults && places == old(places)
      ensures Kept(old(s), s, {n}) && n in s.members
      ensures !ok ==> faults > old(faults)
      ensures ok ==> OnlyFenced(old(s), s, n) && Fortified(s.members[n].local)
      ensures old(Fortified(s.members[n].local)) ==> ok && s == old(s)
    {
      var l := s.members[n].local;
      FencedAlready(l);
      if FencedNode(l.node.value, l.claim) == l.node.value {
        return true;
      }
      ghost var t;
      ok, t := Call(n, FenceNode);
      if ok { NodeIsFenced(old(s), t, s, n); }
    }

    /** The claim first, then the Node. */
    method FenceBoth(n: Name) returns (ok: bool)
      requires Valid() && ReadyToFence(s, n)
      modifies this
      ensures Valid() && old(acts) <= acts && old(faults) <= faults && places == old(places)
      ensures Kept(old(s), s, {n}) && n in s.members
      ensures !ok ==> faults > old(faults)
      ensures ok ==> OnlyFenced(old(s), s, n) && Fortified(s.members[n].local)
    {
      ok := FenceTheClaim(n);
      if !ok { return; }
      ghost var s1 := s;
      ok := FenceTheNode(n);
      KeptTrans(old(s), s1, s, {n}, {n});
    }

    /** Records the slot, fences the claim, cordons and fences the Node, in this order. */
    method AssignRebootSlot(n: Name) returns (ok: bool)
      requires Valid() && n in s.members
      requires CodeGuard(s.pass, s.members[n].local, s.members[n].drain, MarkSlot)
      modifies this
      ensures Valid() && old(acts) <= acts && old(faults) <= faults && places == old(places)
      ensures Kept(old(s), s, {n}) && n in s.members
      ensures !ok ==> faults > old(faults)
      ensures ok ==> SlotTaken(old(s), s, n) && Fortified(s.members[n].local)
    {
      ok := RecordSlot(n);
      if !ok { return; }
      ghost var s1 := s;
      ok := FenceBoth(n);
      KeptTrans(old(s), s1, s, {n}, {n});
      if ok { StillTaken(old(s), s1, s, n); }
    }

    // ---- Freeing a slot ---------------------------------------------------------------------

    /** A step that needs no API call. */
    method Note(n: Name, op: Op)
      requires Valid() && n in s.members
      requires CodeGuard(s.pass, s.members[n].local, s.members[n].drain, op) && ApiGuard(s.pass, s.members[n], op)
      modifies this
      ensures Valid() && old(acts) <= acts && old(faults) <= faults && places == old(places)
      ensures Kept(old(s), s, {n})
      ensures Answered(old(s), old(s), s, n, op)
    {
      NothingKept(s);
      CheckOutlivesEnvironment(origin, acts, trail, s, n, op);
      CallAnswered(s, s, n, op);
      OpKeepsOthers(s, n, op);
      Perform(On(n, op));
    }

    method ReadNode(n: Name) returns (ok: bool)
      requires Valid() && n in s.members && CodeGuard(s.pass, s.members[n].local, s.members[n].drain, Read)
      modifies this
      ensures Valid() && old(acts) <= acts && old(faults) <= faults && places == old(places)
      ensures Kept(old(s), s, {n}) && n in s.members
      ensures !ok ==> faults > old(faults)
      ensures ok ==> OnlyRead(old(s), s, n)
    {
      ghost var t;
      ok, t := Call(n, Read);
    }

    method RestoreTheNode(n: Name) returns (ok: bool)
      requires Valid() && n in s.members && CodeGuard(s.pass, s.members[n].local, s.members[n].drain, RestoreNode)
      modifies this
      ensures Valid() && old(acts) <= acts && old(faults) <= faults && places == old(places)
      ensures Kept(old(s), s, {n}) && n in s.members
      ensures !ok ==> faults > old(faults)
      ensures ok ==> UndoneTo(old(s), s, n, NodeDone)
      ensures old(NothingOnNode(s.pass, s.members[n].local)) ==> ok
    {
      var l := s.members[n].local;
      if NothingOnNode(s.pass, l) { NothingToPatch(s.pass, l); }
      if NodePatchNeeded(l.own.value.annotations, l.node.value, DropsTaint(s.pass, l)) {
        ghost var t;
        ok, t := Call(n, RestoreNode);
      } else {
        Note(n, RestoreNode);
        ok := true;
      }
    }

    method RestoreTheClaim(n: Name) returns (ok: bool)
      requires Valid() && n in s.members && CodeGuard(s.pass, s.members[n].local, s.members[n].drain, RestoreClaim)
      requires s.members[n].local.node.Some?
      modifies this
      ensures Valid() && old(acts) <= acts && old(faults) <= faults && places == old(places)
      ensures Kept(old(s), s, {n}) && n in s.members
      ensures !ok ==> faults > old(faults)
      ensures ok ==> UndoneTo(old(s), s, n, ClaimDone)
      ensures var a := old(s).members[n].local.own.value.annotations;
              OwnsClaimRepair !in a && OwnsClaimDisrupt !in a ==> ok
    {
      var a := s.members[n].local.own.value.annotations;
      if OwnsClaimRepair in a || OwnsClaimDisrupt in a {
        ghost var t;
        ok, t := Call(n, RestoreClaim);
      } else {
        Note(n, RestoreClaim);
        ok := true;
      }
    }

    /** Undoes the operator's effects on the Node, then those on the claim. */
    method UndoEffects(n: Name) returns (ok: bool, ghost s1: State)
      requires Valid() && n in s.members && CodeGuard(s.pass, s.members[n].local, s.members[n].drain, RestoreNode)
      requires Freeing(s.pass, s.members[n].local)
      modifies this
      ensures Valid() && old(acts) <= acts && old(faults) <= faults && places == old(places)
      ensures Kept(old(s), s, {n}) && n in s.members
      ensures !ok ==> faults > old(faults)
      ensures ok ==> UndoneTo(old(s), s1, n, NodeDone) && UndoneTo(s1, s, n, ClaimDone)
      ensures ok ==> CodeGuard(s.pass, s.members[n].local, s.members[n].drain, Unmark)
    {
      ok := RestoreTheNode(n);
      s1 := s;
      if !ok { return; }
      StillFreeing(old(s), s1, n, NodeDone);
      ok := RestoreTheClaim(n);
      KeptTrans(old(s), s1, s, {n}, {n});
      if ok { StillFreeing(s1, s, n, ClaimDone); }
    }

    /** Undoes the operator's effects on Node and claim, then clears the record. */
    method FreeRebootSlot(n: Name) returns (ok: bool)
      requires Valid() && n in s.members && CodeGuard(s.pass, s.members[n].local, s.members[n].drain, RestoreNode)
      requires Freeing(s.pass, s.members[n].local)
      modifies this
      ensures Valid() && old(acts) <= acts && old(faults) <= faults && places == old(places)
      ensures Kept(old(s), s, {n}) && n in s.members
      ensures !ok ==> faults > old(faults)
      ensures ok ==> Released(old(s), s, n)
    {
      ghost var s1;
      ok, s1 := UndoEffects(n);
      if !ok { return; }
      ghost var s2 := s;
      ghost var t;
      ok, t := Call(n, Unmark);
      KeptTrans(old(s), s2, s, {n}, {n});
      if ok {
        UnmarkedIsReleased(old(s), s1, s2, t, s, n);
      }
    }

    /** Takes the startup taint off the Node, if it is still there. */
    method DropStartupTaint(n: Name) returns (ok: bool)
      requires Valid() && n in s.members && CodeGuard(s.pass, s.members[n].local, s.members[n].drain, DropTaint)
      modifies this
      ensures Valid() && old(acts) <= acts && old(faults) <= faults && places == old(places)
      ensures Kept(old(s), s, {n}) && n in s.members
      ensures !ok ==> faults > old(faults)
      ensures ok ==> && s.pass == old(s).pass && s.members[n].local.own == old(s).members[n].local.own
                     && CodeGuard(s.pass, s.members[n].local, s.members[n].drain, ClearTaint)
                     && DrainKept(old(s).members[n].drain, s.members[n].drain)
    {
      if !HasStartupTaint(s.members[n].local.node.value.taints) {
        NothingKept(s);
        return true;
      }
      ghost var t;
      ok, t := Call(n, DropTaint);
    }

    /** Takes the startup taint off a node that never needed a slot, then clears its record. */
    method RemoveStartupTaint(n: Name) returns (ok: bool)
      requires Valid() && n in s.members && CodeGuard(s.pass, s.members[n].local, s.members[n].drain, DropTaint)
      modifies this
      ensures Valid() && old(acts) <= acts && old(faults) <= faults && places == old(places)
      ensures Kept(old(s), s, {n}) && n in s.members
      ensures !ok ==> faults > old(faults)
      ensures ok ==> Checked(old(s), s, n, false)
    {
      ok := DropStartupTaint(n);
      if !ok { return; }
      ghost var s1 := s;
      ghost var t;
      ok, t := Call(n, ClearTaint);
      KeptTrans(old(s), s1, s, {n}, {n});
    }

    /** Releases the completed update state of one UpToDate node whose Node is Ready. */
    method FreeCompletedSlot(n: Name) returns (ok: bool, freed: bool)
      requires Valid() && n in s.members && s.members[n].local.restore == Untouched
      requires Candidate(s.pass, s.members[n].local, UpToDate)
      modifies this
      ensures Valid() && old(acts) <= acts && old(faults) <= faults && places == old(places)
      ensures Kept(old(s), s, {n}) && n in s.members
      ensures !ok ==> faults > old(faults)
      ensures ok ==> Checked(old(s), s, n, freed)
    {
      freed := false;
      var own := s.members[n].local.own.value;
      if !HasSlot(own) && OwnsTaint !in own.annotations {
        NothingKept(s);
        return true, false;
      }
      ok := ReadNode(n);
      if !ok { return; }
      ghost var s1 := s;
      var l := s.members[n].local;
      if l.node.value.ready != True { return; }
      if HasSlot(own) {
        ok := FreeRebootSlot(n);
        KeptTrans(old(s), s1, s, {n}, {n});
        freed := true;
      } else {
        ok := RemoveStartupTaint(n);
        KeptTrans(old(s), s1, s, {n}, {n});
      }
    }

    /** Frees the slots of UpToDate nodes that are Ready, before capacity is counted. */
    method FreeCompletedSlots(names: seq<Name>) returns (ok: bool, freed: nat)
      requires Valid() && R.Distinct(names)
      requires forall n | n in names ::
                 n in s.members && s.members[n].local.restore == Untouched && Candidate(s.pass, s.members[n].local, UpToDate)
      modifies this
      ensures Valid() && old(acts) <= acts && old(faults) <= faults && places == old(places)
      ensures Kept(old(s), s, Names(names))
      ensures !ok ==> faults > old(faults)
      ensures ok ==> s.pass == old(s).pass && |Occupied(s)| + freed == |Occupied(old(s))|
      ensures ok ==> forall n | n in names :: n in s.members && CheckedNode(old(s).members[n], s.members[n])
    {
      freed := 0;
      NothingKept(s);
      for i := 0 to |names|
        invariant Valid() && old(acts) <= acts && old(faults) <= faults && places == old(places)
        invariant Kept(old(s), s, Names(names[..i]))
        invariant s.pass == old(s).pass && |Occupied(s)| + freed == |Occupied(old(s))|
        invariant forall n | n in names[..i] :: n in s.members && CheckedNode(old(s).members[n], s.members[n])
      {
        var n := names[i];
        ghost var s1 := s;
        assert n in names && n !in names[..i];
        assert MemberKept(old(s).members[n], s1.members[n]);
        var f;
        ok, f := FreeCompletedSlot(n);
        NamesStep(names, i);
        KeptTrans(old(s), s1, s, Names(names[..i]), {n});
        if !ok {
          KeptMore(old(s), s, Names(names[..i + 1]), Names(names));
          return;
        }
        OccupiedAfter(s1, s, n);
        if f { freed := freed + 1; }
        CheckedOnward(old(s), s1, s, names, i);
      }
      assert names[..|names|] == names;
      ok := true;
    }

    // ---- Drain results ----------------------------------------------------------------------

    /** Consumes one finished drain; a successful drain of an owned node approves its reboot. The
        entry is gone even if the approval cannot be written. */
    method CollectOne(n: Name) returns (ok: bool)
      requires Valid() && n in s.members && s.pass.Busy? && s.pass.stage == Rolling && s.members[n].drain.Some?
      modifies this
      ensures Valid() && old(acts) <= acts && old(faults) <= faults && places == old(places)
      ensures Kept(old(s), s, {n}) && n in s.members
      ensures !ok ==> faults > old(faults)
      ensures ok ==> s.pass == old(s).pass && CollectedNode(old(s).members[n], s.members[n])
      ensures old(s).members[n].drain.value.Finished? ==> s.members[n].drain.None?
    {
      NothingKept(s);
      var m := s.members[n];
      if m.drain.value.Running? {
        return true;
      }
      if !m.drain.value.ok || m.local.own.None? {
        Note(n, Collect(false));
        ConsumedIsCollected(old(s), old(s), s, n, false);
        return true;
      }
      ghost var t;
      ok, t := Call(n, Collect(true));
      if ok { ConsumedIsCollected(old(s), t, s, n, true); }
      if !ok && s.members[n].drain.Some? {
        ghost var s1 := s;
        RefusedKeeps(old(s), t, s, n);
        Note(n, Collect(false));
        KeptTrans(old(s), s1, s, {n}, {n});
      }
    }

    method CollectDrainResults() returns (ok: bool)
      requires Valid() && s.pass.Busy? && s.pass.stage == Rolling
      modifies this
      ensures Valid() && old(acts) <= acts && old(faults) <= faults && places == old(places)
      ensures Kept(old(s), s, old(s).members.Keys)
      ensures !ok ==> faults > old(faults)
      ensures ok ==> s.pass == old(s).pass
      ensures ok ==> forall n | n in old(s).members :: n in s.members && CollectedNode(old(s).members[n], s.members[n])
    {
      var todo := set n | n in s.members && s.members[n].drain.Some?;
      ghost var first := todo;
      ghost var done: set<Name> := {};
      NothingKept(s);
      while todo != {}
        invariant Valid() && old(acts) <= acts && old(faults) <= faults && places == old(places)
        invariant todo !! done && done + todo == first && first <= old(s).members.Keys
        invariant Kept(old(s), s, done) && s.pass == old(s).pass
        invariant forall n | n in done :: n in s.members && CollectedNode(old(s).members[n], s.members[n])
        decreases todo
      {
        var n :| n in todo;
        ghost var s1 := s;
        assert MemberKept(old(s).members[n], s.members[n]);
        ok := CollectOne(n);
        KeptTrans(old(s), s1, s, done, {n});
        if !ok {
          KeptMore(old(s), s, done + {n}, old(s).members.Keys);
          return;
        }
        CollectedOnward(old(s), s1, s, done, n);
        todo, done := todo - {n}, done + {n};
      }
      UntouchedCollected(old(s), s, done);
      KeptMore(old(s), s, done, old(s).members.Keys);
      ok := true;
    }

    // ---- Candidates -------------------------------------------------------------------------

    /** Reads the Node and its claim and assigns a slot unless Karpenter is disrupting the node. */
    method ProcessCandidate(n: Name) returns (ok: bool, served: bool)
      requires Valid() && n in s.members && s.members[n].local.restore == Untouched
      requires Candidate(s.pass, s.members[n].local, Staged)
      requires HasSlot(s.members[n].local.own.value) || s.pass.budget > 0
      modifies this
      ensures Valid() && old(acts) <= acts && old(faults) <= faults && places == old(places)
      ensures Kept(old(s), s, {n}) && n in s.members
      ensures !ok ==> faults > old(faults)
      ensures ok ==> Processed(old(s), s, n, served)
      ensures ok ==> var node, claim := s.members[n].local.node.value, s.members[n].local.claim;
                served <==>
                && !node.deleting
                && Taint(KarpenterRebooting, NoSchedule) !in node.taints
                && Taint(KarpenterDisrupted, NoSchedule) !in node.taints
                && !claim.Gone?
                && (claim.Found? ==> !claim.claim.deleting && !claim.claim.rebooting
                                     && !claim.claim.disrupted && !claim.claim.terminating)
    {
      served := false;
      ok := ReadNode(n);
      if !ok || Deferred(s.members[n].local) { return; }
      ghost var s1 := s;
      ok := AssignRebootSlot(n);
      KeptTrans(old(s), s1, s, {n}, {n});
      served := true;
    }

    /** Candidates that hold a slot are always processed, whatever the capacity. */
    method ServeSlotted(names: seq<Name>) returns (ok: bool)
      requires Valid() && R.Distinct(names)
      requires forall n | n in names ::
                 && n in s.members && s.members[n].local.restore == Untouched
                 && Candidate(s.pass, s.members[n].local, Staged) && HasSlot(s.members[n].local.own.value)
      modifies this
      ensures Valid() && old(acts) <= acts && old(faults) <= faults && places == old(places)
      ensures Kept(old(s), s, Names(names))
      ensures !ok ==> faults > old(faults)
      ensures ok ==> s.pass == old(s).pass && |Occupied(s)| == |Occupied(old(s))|
      ensures ok ==> forall n | n in names :: n in s.members && TendedNode(old(s).members[n], s.members[n])
    {
      NothingKept(s);
      for i := 0 to |names|
        invariant Valid() && old(acts) <= acts && old(faults) <= faults && places == old(places)
        invariant Kept(old(s), s, Names(names[..i]))
        invariant s.pass == old(s).pass && |Occupied(s)| == |Occupied(old(s))|
        invariant forall n | n in names[..i] :: n in s.members && TendedNode(old(s).members[n], s.members[n])
      {
        var n := names[i];
        ghost var s1 := s;
        assert n in names && n !in names[..i];
        assert MemberKept(old(s).members[n], s1.members[n]);
        var served;
        ok, served := ProcessCandidate(n);
        NamesStep(names, i);
        KeptTrans(old(s), s1, s, Names(names[..i]), {n});
        if !ok {
          KeptMore(old(s), s, Names(names[..i + 1]), Names(names));
          return;
        }
        OccupiedAfter(s1, s, n);
        TendedOnward(old(s), s1, s, names, i);
      }
      assert names[..|names|] == names;
      ok := true;
    }

    /** Serves unslotted candidates in the given order until the budget is used up; a deferred one is
        passed over and uses nothing. */
    method ServeUnslotted(names: seq<Name>, available: nat) returns (ok: bool, served: seq<Name>, deferred: set<Name>)
      requires Valid() && R.Distinct(names) && s.pass.Busy? && available == s.pass.budget
      requires forall n | n in names ::
                 && n in s.members && s.members[n].local.restore == Untouched
                 && Candidate(s.pass, s.members[n].local, Staged) && !HasSlot(s.members[n].local.own.value)
      modifies this
      ensures Valid() && old(acts) <= acts && old(faults) <= faults && places == old(places)
      ensures Kept(old(s), s, Names(names))
      ensures !ok ==> faults > old(faults)
      ensures ok ==> FirstServed(names, deferred, served, available)
      ensures ok ==> s.pass.Busy? && s.pass.limit == old(s).pass.limit && |Occupied(s)| == |Occupied(old(s))| + |served|
      ensures ok ==> forall n | n in names ::
                       n in s.members && ServedNode(old(s).members[n], s.members[n], n in served, n in deferred)
    {
      served, deferred := [], {};
      var i := 0;
      NothingKept(s);
      while i < |names| && |served| < available
        invariant 0 <= i <= |names|
        invariant Valid() && old(acts) <= acts && old(faults) <= faults && places == old(places)
        invariant Kept(old(s), s, Names(names[..i]))
        invariant s.pass.Busy? && s.pass.limit == old(s).pass.limit && s.pass.budget + |served| == available
        invariant served == Eligible(names[..i], deferred) && deferred <= Names(names[..i])
        invariant |Occupied(s)| == |Occupied(old(s))| + |served|
        invariant forall n | n in names[..i] ::
                    n in s.members && ServedNode(old(s).members[n], s.members[n], n in served, n in deferred)
      {
        var n := names[i];
        ghost var s1 := s;
        assert n in names && n !in names[..i];
        assert MemberKept(old(s).members[n], s1.members[n]);
        var f;
        ok, f := ProcessCandidate(n);
        NamesStep(names, i);
        KeptTrans(old(s), s1, s, Names(names[..i]), {n});
        if !ok {
          KeptMore(old(s), s, Names(names[..i + 1]), Names(names));
          return;
        }
        OccupiedAfter(s1, s, n);
        EligibleMembers(names[..i], deferred);
        ServedOnward(old(s), s1, s, names, i, served, deferred, f);
        EligibleStep(names, i, deferred);
        if f { served := served + [n]; } else { deferred := deferred + {n}; }
        i := i + 1;
      }
      EligiblePrefix(names, i, deferred);
      EligibleMembers(names[..i], deferred);
      KeptMore(old(s), s, Names(names[..i]), Names(names));
      RestServed(old(s), s, names, i, served, deferred);
      ok := true;
    }

    // ---- Starting drains --------------------------------------------------------------------

    method EnsureDrain(n: Name)
      requires Valid() && n in s.members && Candidate(s.pass, s.members[n].local, Staged)
      requires HasSlot(s.members[n].local.own.value) && !s.members[n].local.own.value.approved
      requires s.members[n].local.node.Some? && !Deferred(s.members[n].local)
      modifies this
      ensures Valid() && old(acts) <= acts && old(faults) <= faults && places == old(places)
      ensures Kept(old(s), s, {n}) && n in s.members
      ensures s.pass == old(s).pass && s.members[n].drain.Some? && s.members[n].local == old(s).members[n].local
    {
      NothingKept(s);
      KeptMore(s, s, {}, {n});
      if s.members[n].drain.Some? {
        return;
      }
      Note(n, StartDrain);
    }

    method DrainIfDue(n: Name) returns (ok: bool)
      requires Valid() && n in s.members && s.members[n].local.restore == Untouched
      requires Candidate(s.pass, s.members[n].local, Staged)
      modifies this
      ensures Valid() && old(acts) <= acts && old(faults) <= faults && places == old(places)
      ensures Kept(old(s), s, {n}) && n in s.members
      ensures !ok ==> faults > old(faults)
      ensures ok ==> s.pass == old(s).pass && DrainingNode(old(s).members[n], s.members[n])
    {
      var own := s.members[n].local.own.value;
      if !HasSlot(own) || own.approved {
        NothingKept(s);
        KeptMore(s, s, {}, {n});
        return true;
      }
      ok := ReadNode(n);
      if !ok || Deferred(s.members[n].local) { return; }
      ghost var s1 := s;
      EnsureDrain(n);
      KeptTrans(old(s), s1, s, {n}, {n});
    }

    /** Makes sure every staged node that holds a slot and is not yet approved is being drained. */
    method StartDrains(names: seq<Name>) returns (ok: bool)
      requires Valid() && R.Distinct(names)
      requires forall n | n in names ::
                 n in s.members && s.members[n].local.restore == Untouched && Candidate(s.pass, s.members[n].local, Staged)
      modifies this
      ensures Valid() && old(acts) <= acts && old(faults) <= faults && places == old(places)
      ensures Kept(old(s), s, Names(names))
      ensures !ok ==> faults > old(faults)
      ensures ok ==> s.pass == old(s).pass
      ensures ok ==> forall n | n in names :: n in s.members && DrainingNode(old(s).members[n], s.members[n])
    {
      NothingKept(s);
      for i := 0 to |names|
        invariant Valid() && old(acts) <= acts && old(faults) <= faults && places == old(places)
        invariant Kept(old(s), s, Names(names[..i]))
        invariant s.pass == old(s).pass
        invariant forall n | n in names[..i] :: n in s.members && DrainingNode(old(s).members[n], s.members[n])
      {
        var n := names[i];
        ghost var s1 := s;
        assert n in names && n !in names[..i];
        assert MemberKept(old(s).members[n], s1.members[n]);
        ok := DrainIfDue(n);
        NamesStep(names, i);
        KeptTrans(old(s), s1, s, Names(names[..i]), {n});
        if !ok {
          KeptMore(old(s), s, Names(names[..i + 1]), Names(names));
          return;
        }
        DrainingOnward(old(s), s1, s, names, i);
      }
      assert names[..|names|] == names;
      ok := true;
    }

    // ---- The rollout pass -------------------------------------------------------------------

    /** Serves slotted candidates, then unslotted ones within the budget. */
    method AssignSlots(staged: seq<Name>, available: nat)
      returns (ok: bool, candidates: seq<Name>, served: seq<Name>, deferred: set<Name>)
      requires Valid() && s.pass.Busy? && R.Distinct(staged) && Serviceable(s, staged) && available == s.pass.budget
      modifies this
      ensures Valid() && old(acts) <= acts && old(faults) <= faults && places == old(places)
      ensures SamePass(old(s).pass, s.pass)
      ensures !ok ==> faults > old(faults)
      ensures ok ==> Kept(old(s), s, Names(staged)) && Serviceable(s, staged)
      ensures ok ==> R.InOrder(candidates) && FirstServed(candidates, deferred, served, available)
      ensures ok ==> forall n :: n in candidates <==> n in staged && !HasSlot(old(s).members[n].local.own.value)
      ensures ok ==> |Occupied(s)| == |Occupied(old(s))| + |served|
      ensures ok ==> forall n | n in staged ::
                       n in s.members && MidNode(old(s).members[n], s.members[n], n in served, n in deferred)
    {
      var owned := OwnMap(s);
      var slotted, unslotted := R.PartitionSlottedNodes(staged, owned);
      candidates, served, deferred := unslotted, [], {};
      OrderedDistinct(slotted);
      OrderedDistinct(unslotted);
      PartsOfStaged(s, staged, slotted, unslotted);
      ok := ServeSlotted(slotted);
      if !ok { return; }
      ghost var s1 := s;
      OthersServiceable(old(s), s1, staged, slotted, unslotted);
      ok, served, deferred := ServeUnslotted(unslotted, available);
      if !ok { return; }
      ServedAreCandidates(unslotted, deferred, served, available);
      StagedAfterServing(old(s), s1, s, staged, slotted, unslotted, served, deferred);
      KeptTwice(old(s), s1, s, Names(slotted), Names(unslotted), Names(staged));
    }

    /** Assigns slots, then starts drains. */
    method AssignAndDrain(staged: seq<Name>, available: nat)
      returns (ok: bool, candidates: seq<Name>, served: seq<Name>, deferred: set<Name>)
      requires Valid() && s.pass.Busy? && R.Distinct(staged) && Serviceable(s, staged) && available == s.pass.budget
      modifies this
      ensures Valid() && old(acts) <= acts && old(faults) <= faults && places == old(places)
      ensures SamePass(old(s).pass, s.pass)
      ensures !ok ==> faults > old(faults)
      ensures ok ==> Kept(old(s), s, Names(staged))
      ensures ok ==> R.InOrder(candidates) && FirstServed(candidates, deferred, served, available)
      ensures ok ==> forall n :: n in candidates <==> n in staged && !HasSlot(old(s).members[n].local.own.value)
      ensures ok ==> |Occupied(s)| == |Occupied(old(s))| + |served|
      ensures ok ==> forall n | n in staged ::
                       n in s.members && DoneNode(old(s).members[n], s.members[n], n in served, n in deferred)
    {
      ok, candidates, served, deferred := AssignSlots(staged, available);
      if !ok { return; }
      ghost var s1 := s;
      ok := StartDrains(staged);
      if !ok { return; }
      KeptTwice(old(s), s1, s, Names(staged), Names(staged), Names(staged));
      OccupiedSame(s1, s, staged);
      StagedAfterDrains(old(s), s1, s, staged, served, deferred);
    }

    /** Collects drain results, classifies the nodes and picks out those that reboot for too long. */
    method CollectAndClassify(timeout: int, now: int)
      returns (ok: bool, b: R.Buckets, occupied: int, expired: seq<Name>, v: View)
      requires Valid() && s.pass.Busy? && s.pass.stage == Rolling
      modifies this
      ensures Valid() && old(acts) <= acts && old(faults) <= faults && places == old(places)
      ensures Kept(old(s), s, old(s).members.Keys)
      ensures !ok ==> faults > old(faults)
      ensures ok ==> s.pass == old(s).pass && occupied == |Occupied(s)|
      ensures ok ==> forall n | n in old(s).members :: n in s.members && CollectedNode(old(s).members[n], s.members[n])
      ensures ok ==> R.Classified(b, OwnMap(s), OwnMap(s).Keys) && forall n | n in b.rebooting :: n in OwnMap(s)
      ensures ok ==> v.owned == OwnMap(s) && Viewed(v, timeout, now)
      ensures ok ==> expired == R.Expired(OwnMap(s), b.rebooting, timeout, now, true)
    {
      b, occupied, expired := R.Buckets([], [], [], [], [], [], []), 0, [];
      v := View(map[], b, 0);
      ok := CollectDrainResults();
      if !ok { return; }
      var owned := OwnMap(s);
      b, occupied := R.BuildRolloutState(owned);
      SlottedIsOccupied(s);
      assert R.Bucket(b, Some(Rebooting)) == b.rebooting;
      var waiting, wake;
      waiting, expired, wake := R.TimeOutRebooting(b.rebooting, owned, timeout, now);
      v := View(owned, b.(rebooting := waiting, degraded := b.degraded + expired), wake);
      Q.WakeUpIsLeast(owned, b, timeout, now, wake);
      TimedIsViewed(owned, b, timeout, now, wake);
    }

    /** Frees completed slots and looks for bad ones among what has been classified. */
    method FreeAndExamine(b: R.Buckets, expired: seq<Name>, ghost timeout: int, ghost now: int)
      returns (ok: bool, freed: nat, unhealthy: seq<R.Unhealthy>)
      requires Valid() && s.pass.Busy? && s.pass.stage == Rolling && s.pass.image.Digested? && AllUntouched(s)
      requires R.Classified(b, OwnMap(s), OwnMap(s).Keys) && forall n | n in b.rebooting :: n in OwnMap(s)
      requires expired == R.Expired(OwnMap(s), b.rebooting, timeout, now, true)
      modifies this
      ensures Valid() && old(acts) <= acts && old(faults) <= faults && places == old(places)
      ensures Kept(old(s), s, Names(b.upToDate))
      ensures !ok ==> faults > old(faults)
      ensures ok ==> s.pass == old(s).pass && |Occupied(s)| + freed == |Occupied(old(s))|
      ensures ok ==> forall n | n in b.upToDate ::
                       n in old(s).members && n in s.members && CheckedNode(old(s).members[n], s.members[n])
      ensures ok ==> R.Classified(b, OwnMap(s), OwnMap(s).Keys)
      ensures ok ==> R.NamesOf(unhealthy) == Bad(s, timeout, now) && |unhealthy| == |R.NamesOf(unhealthy)|
    {
      unhealthy := [];
      UpToDateCandidates(s, b);
      ok, freed := FreeCompletedSlots(b.upToDate);
      if !ok { return; }
      CopiesKept(old(s), s, b.upToDate);
      R.ClassifiedAgain(b, OwnMap(old(s)), OwnMap(s));
      RunAgreesWithPass(origin, acts, trail);
      R.ExpiredAgain(OwnMap(old(s)), OwnMap(s), b.rebooting, timeout, now);
      R.UnhealthyAreBadSlots(OwnMap(s), b, s.pass.image.digest, timeout, now);
      unhealthy := R.FindUnhealthySlots(OwnMap(s), b.degraded + expired, b.upToDate, expired, s.pass.image.digest);
    }

    /** What a pass looks at before it hands out slots. */
    method Survey(timeout: int, now: int)
      returns (ok: bool, b: R.Buckets, occupied: int, unhealthy: seq<R.Unhealthy>, v: View)
      requires Valid() && s.pass.Busy? && s.pass.stage == Rolling && s.pass.image.Digested? && AllUntouched(s)
      modifies this
      ensures Valid() && old(acts) <= acts && old(faults) <= faults && places == old(places)
      ensures SamePass(old(s).pass, s.pass)
      ensures !ok ==> faults > old(faults)
      ensures ok ==> s.pass == old(s).pass && occupied == |Occupied(s)| && Surveyed(old(s), s)
      ensures ok ==> v.owned == OwnMap(s) && Viewed(v, timeout, now)
      ensures ok ==> R.Classified(b, OwnMap(s), OwnMap(s).Keys)
      ensures ok ==> R.NamesOf(unhealthy) == Bad(s, timeout, now) && |unhealthy| == |R.NamesOf(unhealthy)|
    {
      unhealthy := [];
      var expired, freed;
      ok, b, occupied, expired, v := CollectAndClassify(timeout, now);
      if !ok { return; }
      ghost var s1 := s;
      StillUntouched(old(s), s1);
      UpToDateCandidates(s1, b);
      ok, freed, unhealthy := FreeAndExamine(b, expired, timeout, now);
      if !ok { return; }
      occupied := occupied - freed;
      ViewedFreed(s1, s, b.upToDate, v, timeout, now);
      v := v.(owned := OwnMap(s));
      SurveyedBoth(old(s), s1, s, b.upToDate);
    }

    /** Draws the budget from the limit and the slots held. */
    method DrawBudget(b: R.Buckets, limit: int, ghost s0: State)
      requires Valid() && s.pass.Busy? && s.pass.stage == Rolling && AllUntouched(s0) && Surveyed(s0, s)
      requires R.Classified(b, OwnMap(s), OwnMap(s).Keys)
      modifies this
      ensures Valid() && old(acts) <= acts && faults == old(faults)
      ensures Since(acts, old(places), places, Only(Allot(limit)))
      ensures SamePass(old(s).pass, s.pass) && s.members == old(s).members && Occupied(s) == Occupied(old(s))
      ensures s.pass.budget == if limit > |Occupied(s)| then limit - |Occupied(s)| else 0
      ensures StagedBucket(s, b.staged) && Surveyed(s0, s)
    {
      Perform(Allot(limit));
      AllotKeepsLocals(old(s), limit);
      StagedServiceable(s0, old(s), s, b);
    }

    /** Draws the budget and spends it. `s1` is the state in between. */
    method DrawAndServe(b: R.Buckets, occupied: int, limit: int, v: View, ghost s0: State)
      returns (r: Result, ghost s1: State, ghost available: nat)
      requires Valid() && s.pass.Busy? && s.pass.stage == Rolling
      requires AllUntouched(s0) && Surveyed(s0, s)
      requires R.Classified(b, OwnMap(s), OwnMap(s).Keys) && occupied == |Occupied(s)|
      modifies this
      ensures Valid() && old(acts) <= acts && old(faults) <= faults && SamePass(old(s).pass, s.pass)
      ensures Since(acts, old(places), places, Only(Allot(limit)))
      ensures r.Failed? ==> faults > old(faults)
      ensures r.Failed? || (r.Done? && r.limit == limit && r.view == v)
      ensures SamePass(old(s).pass, s1.pass) && s1.members == old(s).members && Surveyed(s0, s1)
      ensures available == if limit > |Occupied(s1)| then limit - |Occupied(s1)| else 0
      ensures r.Done? ==> StagedBucket(s1, b.staged) && StagedDone(s1, s, b.staged, r, available)
    {
      DrawBudget(b, limit, s0);
      s1 := s;
      var budget := if limit > occupied then limit - occupied else 0;
      available := budget;
      var ok, candidates, served, deferred := AssignAndDrain(b.staged, budget);
      if !ok { return Failed, s1, available; }
      r := Done(limit, candidates, served, deferred, v);
    }

    /** The same, and what it comes to. */
    method AllotAndServe(b: R.Buckets, occupied: int, limit: int, v: View,
                         ghost s0: State, ghost timeout: int, ghost now: int)
      returns (r: Result)
      requires Valid() && s.pass.Busy? && s.pass.stage == Rolling && s.pass.image.Digested?
      requires AllUntouched(s0) && Surveyed(s0, s)
      requires R.Classified(b, OwnMap(s), OwnMap(s).Keys) && occupied == |Occupied(s)|
      modifies this
      ensures Valid() && old(acts) <= acts && old(faults) <= faults && SamePass(old(s).pass, s.pass)
      ensures Since(acts, old(places), places, Only(Allot(limit)))
      ensures r.Failed? ==> faults > old(faults)
      ensures r.Failed? || (r.Done? && r.limit == limit && r.view == v)
      ensures r.Done? ==> Settled(s, limit) && Allocated(s0, s, r)
      ensures r.Done? ==> SameReports(OwnMap(old(s)), OwnMap(s))
      ensures r.Done? ==> Bad(s, timeout, now) == Bad(old(s), timeout, now) && SameOwned(old(s), s)
    {
      ghost var s1, available;
      r, s1, available := DrawAndServe(b, occupied, limit, v, s0);
      if r.Done? {
        EndOfPass(s0, s1, s, b, r, available, timeout, now);
        assert OwnMap(s1) == OwnMap(old(s));
      }
    }

    /** Halts, refuses an invalid spec, or hands out slots, on what has been surveyed since `s0`. */
    method DecideAndServe(b: R.Buckets, occupied: int, unhealthy: seq<R.Unhealthy>, v: View,
                          paused: bool, max: R.MaxUnavailable, ghost s0: State, ghost timeout: int, ghost now: int)
      returns (r: Result)
      requires Valid() && s.pass.Busy? && s.pass.stage == Rolling && s.pass.image.Digested?
      requires AllUntouched(s0) && Surveyed(s0, s) && v.owned == OwnMap(s)
      requires R.Classified(b, OwnMap(s), OwnMap(s).Keys) && occupied == |Occupied(s)|
      requires R.NamesOf(unhealthy) == Bad(s, timeout, now) && |unhealthy| == |R.NamesOf(unhealthy)|
      modifies this
      ensures Valid() && old(acts) <= acts && old(faults) <= faults && SamePass(old(s).pass, s.pass)
      ensures Since(acts, old(places), places, Draws(R.ResolveMaxUnavailable(paused, max, |OwnMap(old(s))|)))
      ensures r.Failed? ==> faults > old(faults)
      ensures r.Halted? ==> |Bad(s, timeout, now)| >= 2 && R.NamesOf(r.unhealthy) == Bad(s, timeout, now)
      ensures r.Halted? || r.InvalidSpec? ==> s == old(s)
      ensures r.InvalidSpec? ==> |Bad(s, timeout, now)| < 2 && !paused && max.Malformed?
      ensures r.Done? ==> |Bad(s, timeout, now)| < 2 && Settled(s, r.limit) && Allocated(s0, s, r)
      ensures r.Done? ==> R.ResolveMaxUnavailable(paused, max, |OwnMap(old(s))|) == Some(r.limit)
      ensures !r.Failed? ==> SameOwned(old(s), s) && r.view == v && SameReports(v.owned, OwnMap(s))
      ensures !r.Failed? ==> (r.Halted? <==> |R.BadSlots(v.owned, s.pass.image.digest, timeout, now)| >= 2)
    {
      if |unhealthy| >= 2 { return Halted(unhealthy, v); }
      var limit := R.ResolveMaxUnavailable(paused, max, R.NodeCount(b));
      if limit.None? { return InvalidSpec(v); }
      r := AllotAndServe(b, occupied, limit.value, v, s0, timeout, now);
    }

    /** One rollout pass after membership is in sync: it halts if and only if at least two slots have
        gone bad. `mid` is the point of the run where everything had been looked at. */
    method DriveRollout(paused: bool, max: R.MaxUnavailable, timeout: int, now: int)
      returns (r: Result, ghost mid: nat)
      requires Valid() && s.pass.Busy? && s.pass.stage == Rolling && s.pass.image.Digested? && AllUntouched(s)
      modifies this
      ensures Valid() && old(acts) <= acts && old(faults) <= faults && SamePass(old(s).pass, s.pass)
      ensures Since(acts, old(places), places, Draws(R.ResolveMaxUnavailable(paused, max, |OwnMap(old(s))|)))
      ensures !r.Failed? ==> SurveyedAt(old(s), |old(acts)|, acts, trail, mid)
      ensures r.Failed? ==> faults > old(faults)
      ensures r.Halted? ==> |Bad(s, timeout, now)| >= 2 && R.NamesOf(r.unhealthy) == Bad(s, timeout, now)
      ensures r.Halted? || r.InvalidSpec? ==> Surveyed(old(s), s)
      ensures r.InvalidSpec? ==> |Bad(s, timeout, now)| < 2 && !paused && max.Malformed?
      ensures !r.Failed? ==> Reported(r, s, timeout, now)
      ensures r.Done? ==> |Bad(s, timeout, now)| < 2 && Settled(s, r.limit) && Allocated(old(s), s, r)
      ensures r.Done? ==> R.ResolveMaxUnavailable(paused, max, |OwnMap(s)|) == Some(r.limit)
      ensures !r.Failed? ==> SameOwned(old(s), s)
    {
      var ok, b, occupied, unhealthy, v := Survey(timeout, now);
      mid := |acts|;
      if !ok { return Failed, mid; }
      SurveyedOwned(old(s), s);
      ghost var acts1, trail1 := acts, trail;
      r := DecideAndServe(b, occupied, unhealthy, v, paused, max, old(s), timeout, now);
      SameTrail(origin, acts1, trail1, acts, trail, mid);
    }

    // ---- A whole reconcile ------------------------------------------------------------------

    /** Drops the finalizer of a pool that owns nothing any more. */
    method LetPoolGo() returns (ok: bool)
      requires Valid() && s.pass.Busy? && s.pass.stage == Deleting
      requires forall n | n in s.members :: s.members[n].local.own.None?
      modifies this
      ensures Valid() && old(acts) <= acts && old(faults) <= faults
      ensures Since(acts, old(places), places, Only(DropFinalizer))
      ensures !ok ==> faults > old(faults)
      ensures ok ==> s.pass == old(s).pass && s.pass.pool in s.pools && s.pools[s.pass.pool] == Removed
      ensures ok ==> forall n | n in s.members :: !OwnedBy(s.members[n], s.pass.pool)
    {
      var reply := Wait();
      NoCopyYet(old(s), s);
      if reply != Accepted { faults := faults + 1; }
      if reply == Refused { return false; }
      NoneOwned(origin, acts, trail);
      Perform(DropFinalizer);
      ok := reply == Accepted;
    }

    /** The pass ends, if one is still running, or the controller stops and starts again. */
    method EndPass(crash: bool)
      requires Valid()
      modifies this
      ensures Valid() && old(acts) <= acts && faults == old(faults) && s.pass.Idle?
      ensures Since(acts, old(places), places, Ends())
      ensures old(s).pass.Busy? && !crash ==> s == Apply(old(s), End)
      ensures Undisturbed(acts, |old(acts)|) && s.pools == old(s).pools
      ensures forall n | n in s.members :: n in old(s).members && s.members[n].bn == old(s).members[n].bn
    {
      if crash { Perform(Restart); } else if s.pass.Busy? { Perform(End); }
    }

    /** Removes every owned BootcNode, then lets the pool go. */
    method HandlePoolDeletion() returns (ok: bool)
      requires Valid() && s.pass.Busy? && s.pass.stage == Deleting
      requires AllUntouched(s)
      modifies this
      ensures Valid() && old(acts) <= acts && old(faults) <= faults
      ensures Since(acts, old(places), places, Only(DropFinalizer))
      ensures !ok ==> faults > old(faults)
      ensures ok ==> s.pass == old(s).pass && s.pass.pool in s.pools && s.pools[s.pass.pool] == Removed
      ensures ok ==> forall n | n in s.members :: !OwnedBy(s.members[n], s.pass.pool)
    {
      ok := RemoveAll(OwnMap(s).Keys);
      if !ok { return; }
      NoCopyLeft(old(s), s);
      ok := LetPoolGo();
    }

    /** Membership, then rollout, of a pool that stays. */
    method SyncAndRoll(paused: bool, max: R.MaxUnavailable, timeout: int, now: int)
      returns (r: Result, rivals: set<Pool>, ghost start: nat, ghost mid: nat)
      requires Valid() && s.pass.Busy? && s.pass.stage == Syncing && s.pass.image.Digested? && FreshLists(s)
      modifies this
      ensures Valid() && old(acts) <= acts && old(faults) <= faults
      ensures Since(acts, old(places), places, RollsWith(R.ResolveMaxUnavailable(paused, max, |Joining(old(s))|)))
      ensures r.Done? ==> Some(r.limit) == R.ResolveMaxUnavailable(paused, max, |Joining(old(s))|)
      ensures r.Done? ==> Settled(s, r.limit)
      ensures r.InvalidSpec? ==> !paused && max.Malformed?
      ensures r.Halted? ==> s.pass.Busy? && s.pass.image.Digested? && NothingToFree(s) && Bad(s, timeout, now) != {}
      ensures !r.Failed? ==> RolledAt(acts, |old(acts)|, start)
      ensures !r.Failed? ==> SurveyedAt(trail[start], start, acts, trail, mid)
      ensures r.Failed? ==> faults > old(faults)
      ensures !r.Failed? ==> && SamePass(s.pass, old(s).pass.(stage := Rolling)) && Adopted(old(s), s)
                             && rivals == Rivals(old(s), old(s).members.Keys)
      ensures !r.Failed? ==> SlotsWithin(Occupied(old(s)), Occupied(s), r) && Reported(r, s, timeout, now)
    {
      ghost var limit := R.ResolveMaxUnavailable(paused, max, |Joining(s)|);
      var ok;
      ok, rivals := SyncMembership();
      start := |acts|;
      ghost var s1, acts1, trail1, places1 := s, acts, trail, places;
      if !ok {
        SinceMore(acts, acts, old(places), places, places, Only(Roll), Only(Roll), limit);
        return Failed, rivals, start, start;
      }
      JoiningOwned(old(s), s1);
      r, mid := DriveRollout(paused, max, timeout, now);
      SinceMore(acts1, acts, old(places), places1, places, Only(Roll), Draws(limit), limit);
      SameTrail(origin, acts1, trail1, acts, trail, start);
      if !r.Failed? { AfterRollout(old(s), s1, s, r); }
    }

    /** Begins the pass of a pool that stays, syncs and rolls. `start` and `mid` are the points of the run
        where the rollout began and where it had looked at everything. */
    method BeginAndRoll(p: Pool, image: Ref, paused: bool, max: R.MaxUnavailable, timeout: int, now: int)
      returns (r: Result, rivals: set<Pool>, ghost begun: State, ghost start: nat, ghost mid: nat)
      requires Valid() && s.pass.Idle? && image.Digested? && p in s.pools && s.pools[p].Live?
      modifies this
      ensures Valid() && old(acts) <= acts && old(faults) <= faults
      ensures r.Failed? ==> faults > old(faults)
      ensures r.Done? ==> Some(r.limit) == LimitOf(old(s), p, paused, max)
      ensures r.InvalidSpec? ==> !paused && max.Malformed?
      ensures RunReport(Goal(p, image), origin, old(acts), old(trail), acts, trail, old(places), places,
                        LimitOf(old(s), p, paused, max))
      ensures EndReport(Goal(p, image), old(s), begun, s, r, rivals, timeout, now)
      ensures !r.Failed? ==> Points(acts, trail, |old(acts)|, start, mid)
    {
      Perform(Begin(p, image));
      begun := s;
      BeginListsAll(old(s), p, image);
      JoiningAreMembers(old(s), p, image);
      r, rivals, start, mid := SyncAndRoll(paused, max, timeout, now);
    }

    /** What the pass of a pool that stays has reached at its end. */
    method RollLive(p: Pool, image: Ref, paused: bool, max: R.MaxUnavailable, timeout: int, now: int)
      returns (r: Result, rivals: set<Pool>, ghost helped: bool)
      requires Valid() && s.pass.Idle? && image.Digested? && p in s.pools && s.pools[p].Live?
      modifies this
      ensures Valid() && old(acts) <= acts && old(faults) <= faults
      ensures r.Failed? ==> faults > old(faults)
      ensures Since(acts, old(places), places, OfReconcile(p, image, LimitOf(old(s), p, paused, max)))
      ensures r.Done? ==> Some(r.limit) == LimitOf(old(s), p, paused, max)
      ensures r.InvalidSpec? ==> !paused && max.Malformed?
      ensures !r.Failed? ==> s.pass.Busy? && MembersAre(old(s), Apply(s, End), p, image) && rivals == RivalsOf(old(s), p)
      ensures !r.Failed? ==> SlotsWithin(Slots(old(s), p), Slots(Apply(s, End), p), r)
      ensures helped == (Completed(r) && Undisturbed(acts, |old(acts)|) && Prepared(Goal(p, image), old(s)))
      ensures helped ==> s.pass.Busy? && Advanced(Goal(p, image), old(s), Apply(s, End))
      ensures !r.Failed? ==> ReportsMembers(r, Apply(s, End), p, image, timeout, now)
      ensures !r.Failed? && Undisturbed(acts, |old(acts)|) ==> StatusesStored(r.view, Apply(s, End))
    {
      ghost var begun, start, mid;
      r, rivals, begun, start, mid := BeginAndRoll(p, image, paused, max, timeout, now);
      helped := Completed(r) && Undisturbed(acts, |old(acts)|) && Prepared(Goal(p, image), old(s));
      if helped {
        ReportHelps(Goal(p, image), origin, old(acts), old(trail), acts, trail, old(places), places,
                    LimitOf(old(s), p, paused, max), start, mid, old(s), begun, r, rivals, timeout, now);
      }
      ReportGivesMilestones(Goal(p, image), origin, old(acts), old(trail), acts, trail, old(places), places,
                            LimitOf(old(s), p, paused, max));
      if !r.Failed? {
        ReportGivesMembers(Goal(p, image), origin, acts, trail, old(s), begun, r, rivals, timeout, now);
        ReportGivesView(Goal(p, image), origin, acts, trail, old(s), begun, r, rivals, timeout, now);
        if Undisturbed(acts, |old(acts)|) {
          ReportGivesStatuses(Goal(p, image), origin, old(acts), old(trail), acts, trail, old(places), places,
                              LimitOf(old(s), p, paused, max), old(s), begun, r, rivals, timeout, now);
        }
      }
    }

    /** The same, from idle to idle. */
    method ReconcileLive(p: Pool, image: Ref, paused: bool, max: R.MaxUnavailable, timeout: int, now: int, crash: bool)
      returns (r: Result, rivals: set<Pool>)
      requires Valid() && s.pass.Idle? && image.Digested? && p in s.pools && s.pools[p].Live?
      modifies this
      ensures Valid() && old(acts) <= acts && old(faults) <= faults && s.pass.Idle?
      ensures r.Failed? ==> faults > old(faults)
      ensures Since(acts, old(places), places, OfReconcile(p, image, LimitOf(old(s), p, paused, max)))
      ensures r.Done? ==> Some(r.limit) == LimitOf(old(s), p, paused, max)
      ensures r.InvalidSpec? ==> !paused && max.Malformed?
      ensures !r.Failed? ==> MembersAre(old(s), s, p, image) && rivals == RivalsOf(old(s), p)
      ensures !r.Failed? ==> SlotsWithin(Slots(old(s), p), Slots(s, p), r)
      ensures Completed(r) && Undisturbed(acts, |old(acts)|) && Prepared(Goal(p, image), old(s)) ==>
                Advanced(Goal(p, image), old(s), s)
      ensures !r.Failed? ==> ReportsMembers(r, s, p, image, timeout, now)
      ensures !r.Failed? && Undisturbed(acts, |old(acts)|) ==> StatusesStored(r.view, s)
    {
      ghost var helped;
      r, rivals, helped := RollLive(p, image, paused, max, timeout, now);
      ghost var acts1, places1 := acts, places;
      EndPass(crash && r.Failed?);
      SinceBoth(acts1, acts, old(places), places1, places, OfReconcile(p, image, LimitOf(old(s), p, paused, max)));
      if Undisturbed(acts, |old(acts)|) { UndisturbedParts(old(acts), acts1, acts); }
    }

    /** The pass of a pool that is being deleted. */
    method ReconcileDeleting(p: Pool, image: Ref, crash: bool, ghost limit: Option<int>) returns (ok: bool)
      requires Valid() && s.pass.Idle? && image.Digested? && p in s.pools && s.pools[p].Terminating?
      modifies this
      ensures Valid() && old(acts) <= acts && old(faults) <= faults && s.pass.Idle?
      ensures !ok ==> faults > old(faults)
      ensures Since(acts, old(places), places, OfReconcile(p, image, limit))
      ensures ok ==> p in s.pools && s.pools[p] == Removed && forall n | n in s.members :: !OwnedBy(s.members[n], p)
    {
      Perform(Begin(p, image));
      BeginListsAll(old(s), p, image);
      ghost var places1 := places;
      ok := HandlePoolDeletion();
      ghost var acts2, places2 := acts, places;
      EndPass(crash && !ok);
      MilestonesOfDeletion(old(acts), acts2, acts, old(places), places1, places2, places, p, image, limit);
    }

    /** A pool without a finalizer gets one, and nothing else happens; if it is deleted first, the call
        fails. */
    method AddTheFinalizer(p: Pool, ghost image: Ref, ghost limit: Option<int>)
      requires Valid() && s.pass.Idle? && p in s.pools && s.pools[p].NoFinalizer?
      modifies this
      ensures Valid() && old(acts) <= acts && old(faults) <= faults && s.pass.Idle?
      ensures Since(acts, old(places), places, OfReconcile(p, image, limit))
      ensures Kept(old(s), s, {}) && p in s.pools
      ensures faults > old(faults) || s.pools[p].Live?
      ensures s.pools[p].NoFinalizer? || s.pools[p].Live? || s.pools[p].Removed?
      ensures s.pools[p].Removed? ==> !Undisturbed(acts, |old(acts)|)
    {
      var reply := Wait();
      SameTrail(origin, old(acts), old(trail), acts, trail, |old(acts)|);
      PoolsSince(origin, acts, trail, |old(acts)|, |acts|, places, p);
      if reply != Accepted || !s.pools[p].NoFinalizer? { faults := faults + 1; }
      if reply != Refused && s.pools[p].NoFinalizer? { Perform(AddFinalizer(p)); }
    }

    /** What a reconcile does, by the state of its pool. */
    method ReconcilePool(p: Pool, image: Ref, paused: bool, max: R.MaxUnavailable, timeout: int, now: int, crash: bool)
      returns (o: Outcome)
      requires Valid() && s.pass.Idle? && image.Digested?
      modifies this
      ensures Valid() && old(acts) <= acts && old(faults) <= faults && s.pass.Idle?
      ensures Since(acts, old(places), places, OfReconcile(p, image, LimitOf(old(s), p, paused, max)))
      ensures p in old(s).pools && old(s).pools[p].Live? ==> o.Rolled? && (o.result.Failed? ==> faults > old(faults))
      ensures p in old(s).pools && old(s).pools[p].Terminating? ==> o.Deleted? || faults > old(faults)
      ensures p !in old(s).pools || old(s).pools[p].Removed? ==> o == Nothing && s == old(s)
      ensures p in old(s).pools && old(s).pools[p].NoFinalizer? ==> FinalizerCame(old(s), s, p, o, faults - old(faults))
      ensures p in old(s).pools && old(s).pools[p].NoFinalizer? && s.pools[p].Removed? ==> !Undisturbed(acts, |old(acts)|)
      ensures o.Deleted? ==>
                && p in s.pools && s.pools[p] == Removed
                && forall n | n in s.members :: !OwnedBy(s.members[n], p)
      ensures o.Rolled? && Completed(o.result) && Undisturbed(acts, |old(acts)|) && Prepared(Goal(p, image), old(s)) ==>
                Advanced(Goal(p, image), old(s), s)
      ensures o.Rolled? && o.result.Done? ==> Some(o.result.limit) == LimitOf(old(s), p, paused, max)
      ensures o.Rolled? && o.result.InvalidSpec? ==> !paused && max.Malformed?
      ensures o.Rolled? && !o.result.Failed? ==>
                && MembersAre(old(s), s, p, image) && o.rivals == RivalsOf(old(s), p)
                && SlotsWithin(Slots(old(s), p), Slots(s, p), o.result)
                && ReportsMembers(o.result, s, p, image, timeout, now)
                && (Undisturbed(acts, |old(acts)|) ==> StatusesStored(o.result.view, s))
    {
      o := Nothing;
      if p !in s.pools { return; }
      match s.pools[p]
      case Removed =>
      case NoFinalizer =>
        AddTheFinalizer(p, image, LimitOf(s, p, paused, max));
      case Live =>
        var r, rivals := ReconcileLive(p, image, paused, max, timeout, now, crash);
        o := Rolled(r, rivals);
      case Terminating =>
        var ok := ReconcileDeleting(p, image, crash, LimitOf(s, p, paused, max));
        if ok { o := Deleted; }
    }

    /** One reconcile of one pool, from idle to idle. Also a pass that fails midway, or at whose failing
        call the controller stops and starts again, leaves the pool with no more slots than before, or
        than the limit. */
    method Reconcile(p: Pool, image: Ref, paused: bool, max: R.MaxUnavailable, timeout: int, now: int, crash: bool)
      returns (o: Outcome)
      requires Valid() && s.pass.Idle? && image.Digested?
      modifies this
      ensures Valid() && old(acts) <= acts && old(faults) <= faults && s.pass.Idle?
      ensures Since(acts, old(places), places, OfReconcile(p, image, LimitOf(old(s), p, paused, max)))
      ensures Bounded(|Slots(old(s), p)|, |Slots(s, p)|, LimitOf(old(s), p, paused, max))
      ensures p in old(s).pools && old(s).pools[p].Live? ==> o.Rolled? && (o.result.Failed? ==> faults > old(faults))
      ensures p in old(s).pools && old(s).pools[p].Terminating? ==> o.Deleted? || faults > old(faults)
      ensures p !in old(s).pools || old(s).pools[p].Removed? ==> o == Nothing && s == old(s)
      ensures p in old(s).pools && old(s).pools[p].NoFinalizer? ==> FinalizerCame(old(s), s, p, o, faults - old(faults))
      ensures p in old(s).pools && old(s).pools[p].NoFinalizer? && s.pools[p].Removed? ==> !Undisturbed(acts, |old(acts)|)
      ensures o.Deleted? ==>
                && p in s.pools && s.pools[p] == Removed
                && forall n | n in s.members :: !OwnedBy(s.members[n], p)
      ensures o.Rolled? && Completed(o.result) && Undisturbed(acts, |old(acts)|) && Prepared(Goal(p, image), old(s)) ==>
                Advanced(Goal(p, image), old(s), s)
      ensures o.Rolled? && o.result.Done? ==> Some(o.result.limit) == LimitOf(old(s), p, paused, max)
      ensures o.Rolled? && o.result.InvalidSpec? ==> !paused && max.Malformed?
      ensures o.Rolled? && !o.result.Failed? ==>
                && MembersAre(old(s), s, p, image) && o.rivals == RivalsOf(old(s), p)
                && SlotsWithin(Slots(old(s), p), Slots(s, p), o.result)
                && ReportsMembers(o.result, s, p, image, timeout, now)
                && (Undisturbed(acts, |old(acts)|) ==> StatusesStored(o.result.view, s))
    {
      o := ReconcilePool(p, image, paused, max, timeout, now, crash);
      SameTrail(origin, old(acts), old(trail), acts, trail, |old(acts)|);
      SegmentBound(origin, acts, trail, |old(acts)|, places, old(places), p, image, LimitOf(old(s), p, paused, max));
    }

    /** Two reconciles of a new pool: the first adds the finalizer, the second rolls out. */
    method ReconcileNewPool(p: Pool, image: Ref, paused: bool, max: R.MaxUnavailable, timeout: int, now: int)
      returns (o: Outcome)
      requires Valid() && s.pass.Idle? && image.Digested? && p in s.pools && s.pools[p].NoFinalizer?
      modifies this
      ensures Valid() && old(acts) <= acts && old(faults) <= faults && s.pass.Idle?
      ensures faults == old(faults) ==> o.Rolled? && !o.result.Failed?
    {
      var first := Reconcile(p, image, paused, max, timeout, now, false);
      o := Reconcile(p, image, paused, max, timeout, now, false);
    }

    // ---- Any number of reconciles -------------------------------------------------------------

    method ReconcileNext(r: Request, ghost T: B.Targets)
      requires Valid() && s.pass.Idle? && BegunFor(T, acts, places)
      requires r.image.Digested? && r.pool in T && T[r.pool] == r.image
      modifies this
      ensures Valid() && old(acts) <= acts && s.pass.Idle? && BegunFor(T, acts, places)
    {
      var o := Reconcile(r.pool, r.image, r.paused, r.max, r.timeout, r.now, r.crash);
      StillBegunFor(T, old(acts), old(places), acts, places, r.pool, r.image, LimitOf(old(s), r.pool, r.paused, r.max));
      if r.crash { Perform(Restart); }
    }

    /** Any reconciles of any pools, one after the other, and any restarts within and between them. */
    method ReconcileAll(requests: seq<Request>, ghost T: B.Targets)
      requires Valid() && s.pass.Idle? && BegunFor(T, acts, places)
      requires forall r | r in requests :: r.image.Digested? && r.pool in T && T[r.pool] == r.image
      modifies this
      ensures Valid() && old(acts) <= acts && s.pass.Idle? && BegunFor(T, acts, places)
    {
      for k := 0 to |requests|
        invariant Valid() && old(acts) <= acts && s.pass.Idle? && BegunFor(T, acts, places)
      {
        assert requests[k] in requests;
        ReconcileNext(requests[k], T);
      }
    }

    /** If somebody else than the controller can do some of the work, somebody does. */
    method Assist(g: Goal)
      requires Valid() && s.pass.Idle? && g.image.Digested?
      modifies this
      ensures Valid() && old(acts) <= acts && s.pass.Idle?
      ensures Prepared(g, old(s)) && (Rank(g, old(s)) == 0 || SomebodyMoves(g, old(s))) ==>
                Prepared(g, s) && (Rank(g, s) == 0 || Rank(g, s) < Rank(g, old(s)))
    {
      if n :| n in s.members && Moves(g, s.members[n]) {
        var a := On(n, Help(g, s.members[n]));
        if Prepared(g, s) { MoverLowers(g, s, n); }
        if Enabled(s, a) { Perform(a); }
      }
    }

    /** Rounds of one reconcile and one step of somebody else. If no reconcile failed or was disturbed,
        each round lowers the rank, and with as many rounds as the rank the rollout is complete. */
    method RollOut(p: Pool, image: Ref, paused: bool, max: R.MaxUnavailable, timeout: int, clock: seq<int>)
      returns (ghost smooth: bool)
      requires Valid() && s.pass.Idle? && image.Digested? && Prepared(Goal(p, image), s)
      modifies this
      ensures Valid() && old(acts) <= acts && s.pass.Idle?
      ensures var g := Goal(p, image);
              smooth ==> Prepared(g, s) && (Rank(g, s) == 0 || Rank(g, s) + |clock| <= Rank(g, old(s)))
      ensures smooth && |clock| >= Rank(Goal(p, image), old(s)) ==> RolledOut(Goal(p, image), s)
    {
      var g := Goal(p, image);
      smooth := true;
      for k := 0 to |clock|
        invariant Valid() && old(acts) <= acts && s.pass.Idle?
        invariant smooth ==> Prepared(g, s) && (Rank(g, s) == 0 || Rank(g, s) + k <= Rank(g, old(s)))
      {
        ghost var acts0 := acts;
        var o := Reconcile(p, image, paused, max, timeout, clock[k], false);
        smooth := smooth && o.Rolled? && Completed(o.result) && Undisturbed(acts, |acts0|);
        Assist(g);
      }
      if smooth && |clock| >= Rank(g, old(s)) { NoWorkIsRolledOut(g, s); }
    }

    /** The reboot budget, for the code: if passes rolled out the targets and hosts that run theirs stayed
        on them, every reboot that any daemon issued meanwhile was of a node with a slot. */
    lemma RebootsAreSlotted(T: B.Targets, k: nat, n: Name)
      requires Valid() && B.Start(T, origin) && BegunFor(T, acts, places)
      requires forall i | 0 <= i < |acts| && !acts[i].Begin? :: B.Steady(T, trail[i], acts[i])
      requires k < |acts| && B.IssuesReboot(trail[k], acts[k], n)
      ensures trail[k].members[n].bn.Some? && HasSlot(trail[k].members[n].bn.value)
    {
      AtTrail(origin, acts, trail, k);
      forall i | 0 <= i < |acts|
        ensures B.Steady(T, S.At(origin, acts, i), acts[i])
      {
        AtTrail(origin, acts, trail, i);
        if acts[i].Begin? { assert Milestone(acts[i]); }
      }
      B.EveryRebootIsSlotted(T, origin, acts, k, n);
    }

    /** The slot bound, for the code: slots never exceed what was held at the start and the largest limit
        that a pass drew from. */
    lemma SlotsStayBounded(p: Pool, bound: int)
      requires Valid() && origin.pass.Idle?
      requires forall i | i in places && i < |acts| && acts[i].Allot? :: acts[i].limit <= bound
      ensures |Slots(s, p)| <= |Slots(origin, p)| || |Slots(s, p)| <= bound
    {
      forall i | 0 <= i < |acts| && acts[i].Allot?
        ensures acts[i].limit <= bound
      {
        assert Milestone(acts[i]);
      }
      StretchBound(origin, acts, trail, 0, p, bound);
    }

    /** Nobody is left tainted, for the code: if others did not taint managed Nodes, then once a pool is rolled
        out no Node of it has the startup taint. */
    lemma RolledOutIsUntainted(g: Goal)
      requires Valid() && origin.pass.Idle? && T.AllRemembered(origin) && RolledOut(g, s)
      requires forall i | 0 <= i < |acts| :: !T.Retaints(trail[i], acts[i])
      ensures forall n | n in s.members && OwnedBy(s.members[n], g.pool) && s.members[n].node.Some? ::
                Taint(OsNotReady, NoSchedule) !in s.members[n].node.value.taints
    {
      RunIsLegal(origin, acts, trail);
      T.IdleIsTended(origin);
      forall k: nat | k < |acts|
        ensures T.SparesAt(origin, acts, k)
      {
        AtTrail(origin, acts, trail, k);
      }
      T.NoTaintIsForgotten(origin, acts);
      assert forall n | n in s.members :: T.Remembered(s.members[n]);
    }
  }
}
