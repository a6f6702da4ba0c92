/** What the environment leaves alone while a pass runs, and what each part of a pass leaves behind. */
module Passes {
  import opened Types
  import opened Slot
  import opened Classify
  import opened Cluster
  import opened Invariants
  import P = PoolStatus
  import Q = Requeue
  import R = RolloutStates
  import S = Safety

  datatype Reply = Accepted | Refused | Lost

  /** What happens at one API call: events of the environment, then the server's reply. */
  datatype Turn = Turn(events: seq<Action>, reply: Reply)

  /** What the server makes of the next call. */
  function NextReply(turns: seq<Turn>): Reply {
    if turns == [] then Accepted else turns[0].reply
  }

  predicate EnvOp(op: Op) {
    op.DrainEnds? || op.DaemonRuns? || op.Stages? || op.Boots? || op.NodeChanges? || op.ClaimChanges?
    || op.ClaimGoes? || op.NodeGoes? || op.DaemonRestarts? || op.AdminEdits?
  }

  predicate Environmental(a: Action) {
    (a.On? && EnvOp(a.op)) || a.Joins? || a.DeletePool?
  }

  // ---- What the environment leaves alone ----------------------------------------------------

  predicate MemberKept(m: Member, m': Member) {
    && m'.local == m.local
    && (m'.bn.Some? <==> m.bn.Some?)
    && (m.bn.Some? ==> SameButStatus(m.bn.value, m'.bn.value))
    && DrainKept(m.drain, m'.drain)
  }

  predicate DrainKept(d: Option<Drain>, d': Option<Drain>) {
    (d.None? <==> d'.None?) && (d.Some? && d.value.Finished? ==> d' == d)
  }

  predicate Blank(m: Member) {
    m.local == NO_LOCAL && m.bn.None? && m.drain.None?
  }

  predicate SamePass(p: Pass, q: Pass) {
    (p.Idle? && q.Idle?) ||
    (p.Busy? && q.Busy? && p.pool == q.pool && p.image == q.image && p.stage == q.stage)
  }

  /** Between `s` and `t` only the nodes in `except` were worked on. */
  predicate Kept(s: State, t: State, except: set<Name>) {
    && SamePass(s.pass, t.pass)
    && s.members.Keys <= t.members.Keys
    && (forall n | n in s.members && n !in except :: MemberKept(s.members[n], t.members[n]))
    && (forall n | n in t.members && n !in s.members :: Blank(t.members[n]))
  }

  lemma KeptTrans(s: State, t: State, u: State, x: set<Name>, y: set<Name>)
    requires Kept(s, t, x) && Kept(t, u, y) && x <= s.members.Keys && y <= s.members.Keys
    ensures Kept(s, u, x + y)
  {
    forall n | n in u.members && n !in s.members
      ensures Blank(u.members[n])
    {
      if n in t.members { assert MemberKept(t.members[n], u.members[n]); }
    }
    forall n | n in s.members && n !in x + y
      ensures MemberKept(s.members[n], u.members[n])
    {
      assert MemberKept(s.members[n], t.members[n]) && MemberKept(t.members[n], u.members[n]);
    }
  }

  lemma KeptTwice(s: State, t: State, u: State, x: set<Name>, y: set<Name>, z: set<Name>)
    requires Kept(s, t, x) && Kept(t, u, y) && x <= z && y <= z && z <= s.members.Keys
    ensures Kept(s, u, z)
  {
    KeptTrans(s, t, u, x, y);
  }

  lemma EnvOpKeeps(pass: Pass, m: Member, op: Op)
    requires EnvGuard(pass, m, op) && (m.local.own.Some? ==> m.bn.Some?)
    ensures MemberKept(m, Effect(pass, m, op)) && PassAfter(pass, m, op) == pass
  {
  }

  lemma EnvKeeps(s: State, a: Action)
    requires Enabled(s, a) && Environmental(a)
    ensures Kept(s, Apply(s, a), {}) && Apply(s, a).pass == s.pass
  {
    if a.On? {
      assert EnvGuard(s.pass, s.members[a.name], a.op);
      EnvOpKeeps(s.pass, s.members[a.name], a.op);
    }
  }

  lemma OpKeepsOthers(s: State, n: Name, op: Op)
    requires Enabled(s, On(n, op))
    ensures Kept(s, Apply(s, On(n, op)), {n})
  {
  }

  /** What the code checked before a call still holds when the server handles it. */
  lemma CheckOutlivesEnvironment(origin: State, acts: seq<Action>, trail: seq<State>, s: State, n: Name, op: Op)
    requires Inv(origin) && IsRun(origin, acts, trail)
    requires var t := trail[|acts|]; Kept(s, t, {}) && t.pass == s.pass
    requires n in s.members && CodeGuard(s.pass, s.members[n].local, s.members[n].drain, op)
    ensures var t := trail[|acts|];
            n in t.members && (ApiGuard(t.pass, t.members[n], op) ==> Enabled(t, On(n, op)))
  {
    var t := trail[|acts|];
    RunIsLegal(origin, acts, trail);
    assert MemberKept(s.members[n], t.members[n]);
    assert Good(t.pass, t.members[n]);
    DrainGuard(s.pass, s.members[n].local, s.members[n].drain, t.members[n].drain, op);
  }

  lemma DrainGuard(pass: Pass, l: Local, d: Option<Drain>, d': Option<Drain>, op: Op)
    requires CodeGuard(pass, l, d, op)
    requires DrainKept(d, d')
    ensures CodeGuard(pass, l, d', op)
  {
  }

  /** What the code knows of its memory after an accepted call. */
  ghost predicate Answered(s: State, t: State, u: State, n: Name, op: Op) {
    && n in s.members && n in t.members && n in u.members
    && CodeGuard(s.pass, s.members[n].local, s.members[n].drain, op)
    && u.members[n].local == Remember(s.pass, s.members[n].local, t.members[n].node, t.members[n].claim, op)
    && u.pass == PassAfter(s.pass, s.members[n], op)
    && (op == Read ==> t.members[n].node.Some?)
    && (if op.Collect? || op.CancelDrain? then u.members[n].drain.None?
        else if op.StartDrain? then u.members[n].drain.Some?
        else DrainKept(s.members[n].drain, u.members[n].drain))
  }

  lemma CallAnswered(s: State, t: State, n: Name, op: Op)
    requires Kept(s, t, {}) && t.pass == s.pass && n in s.members && Enabled(t, On(n, op))
    requires CodeGuard(s.pass, s.members[n].local, s.members[n].drain, op)
    ensures Answered(s, t, Apply(t, On(n, op)), n, op)
  {
    assert MemberKept(s.members[n], t.members[n]);
    NotBoth(t.pass, t.members[n], s.members[n].drain, op);
  }

  lemma NotBoth(pass: Pass, m: Member, drain: Option<Drain>, op: Op)
    requires CodeGuard(pass, m.local, drain, op)
    ensures !EnvGuard(pass, m, op)
  {
  }

  /** Nothing that shows a disruption has changed. */
  predicate SameSigns(l: Local, l': Local) {
    && l.node.Some? && l'.node.Some?
    && l'.node.value.deleting == l.node.value.deleting && l'.node.value.taints == l.node.value.taints
    && (l'.claim == l.claim
        || (l.claim.Found? && l'.claim.Found? && l'.claim.claim == l.claim.claim.(annotations := l'.claim.claim.annotations)))
  }

  /** After a completed assignment: the slot is on record, one unit of budget is used if it was not
      before, and nothing else of the pass's copy has changed. */
  predicate SlotTaken(s: State, t: State, n: Name) {
    && n in s.members && n in t.members
    && var l, l' := s.members[n].local, t.members[n].local;
    && l.own.Some? && SameSigns(l, l') && l'.restore == l.restore
    && l'.own == Some(l.own.value.(annotations := SlotRecord(l.own.value.annotations, l.node.value, l.claim)))
    && t.pass.Busy? && s.pass.Busy? && t.pass.limit == s.pass.limit
    && t.pass.budget == (if HasSlot(l.own.value) then s.pass.budget else s.pass.budget - 1)
    && DrainKept(s.members[n].drain, t.members[n].drain)
  }

  predicate ClaimFenced(l: Local) {
    l.claim.Found? ==>
      Honoured(l.claim.claim.annotations, DoNotRepair) && Honoured(l.claim.claim.annotations, DoNotDisrupt)
  }

  /** Node cordoned, and Node and claim fenced if there is a claim to fence them against. */
  predicate Fortified(l: Local) {
    && l.node.Some? && l.node.value.unschedulable && ClaimFenced(l)
    && (!l.claim.NoRef? ==> Honoured(l.node.value.annotations, DoNotRepair) && Honoured(l.node.value.annotations, DoNotDisrupt))
  }

  /** What has all fences is not changed by fencing. */
  lemma FencedAlready(l: Local)
    ensures l.claim.Found? ==> (ClaimFenced(l) <==> FencedClaim(l.claim.claim) == l.claim.claim)
    ensures ClaimFenced(l) && l.node.Some? ==> (Fortified(l) <==> FencedNode(l.node.value, l.claim) == l.node.value)
  {
    if l.claim.Found? {
      FencedMaps(l.claim.claim.annotations);
    }
    if l.node.Some? {
      FencedMaps(l.node.value.annotations);
    }
  }

  lemma FencedMaps(a: Annotations)
    ensures Honoured(a, DoNotRepair) && Honoured(a, DoNotDisrupt) <==> Fenced(a) == a
  {
    if Honoured(a, DoNotRepair) && Honoured(a, DoNotDisrupt) {
      assert a[DoNotRepair := "true"] == a;
    } else {
      assert Honoured(Fenced(a), DoNotRepair) && Honoured(Fenced(a), DoNotDisrupt);
    }
  }

  /** The record names nothing that would be on the Node. */
  predicate NothingOnNode(pass: Pass, l: Local)
    requires l.own.Some? && l.node.Some?
  {
    var a := l.own.value.annotations;
    && Lookup(a, WasCordoned) != Some("false") && OwnsNodeRepair !in a && OwnsNodeDisrupt !in a
    && (OwnsTaint in a ==> Leaving(pass, l) || Taint(OsNotReady, NoSchedule) !in l.node.value.taints)
  }

  lemma NothingToPatch(pass: Pass, l: Local)
    requires l.own.Some? && l.node.Some? && NothingOnNode(pass, l)
    ensures !NodePatchNeeded(l.own.value.annotations, l.node.value, DropsTaint(pass, l))
  {
  }

  predicate ReadyToFence(s: State, n: Name) {
    && n in s.members && s.members[n].local.restore == Untouched
    && Candidate(s.pass, s.members[n].local, Staged)
    && s.members[n].local.node.Some? && Recorded(s.members[n].local)
  }

  predicate OnlyFenced(s: State, t: State, n: Name) {
    && n in s.members && n in t.members && t.pass == s.pass
    && t.members[n].local.own == s.members[n].local.own && SameSigns(s.members[n].local, t.members[n].local)
    && t.members[n].local.restore == s.members[n].local.restore
    && DrainKept(s.members[n].drain, t.members[n].drain)
  }

  // ---- The slot record, again and again -------------------------------------------------------

  /** A record that has everything the fences need is not changed by recording again. */
  lemma FullRecordIsKept(r: Annotations, node: Node, claim: ClaimRef)
    requires InRebootSlot in r && r[InRebootSlot] == ""
    requires !claim.NoRef? ==>
               && (OwnsNodeRepair in r || Honoured(node.annotations, DoNotRepair))
               && (OwnsNodeDisrupt in r || Honoured(node.annotations, DoNotDisrupt))
    requires claim.Found? ==>
               && (OwnsClaimRepair in r || Honoured(claim.claim.annotations, DoNotRepair))
               && (OwnsClaimDisrupt in r || Honoured(claim.claim.annotations, DoNotDisrupt))
    ensures SlotRecord(r, node, claim) == r
  {
    assert r[InRebootSlot := ""] == r;
  }

  /** Recording twice records nothing new, and fencing the claim needs no new record. */
  lemma RecordIsStable(a: Annotations, node: Node, claim: ClaimRef)
    ensures var r := SlotRecord(a, node, claim);
            && SlotRecord(r, node, claim) == r
            && (claim.Found? ==> SlotRecord(r, node, Found(FencedClaim(claim.claim))) == r)
  {
    var r := SlotRecord(a, node, claim);
    FullRecordIsKept(r, node, claim);
    if claim.Found? { FullRecordIsKept(r, node, Found(FencedClaim(claim.claim))); }
  }

  predicate RecordNeeded(l: Local)
    requires l.own.Some? && l.node.Some?
  {
    SlotRecord(l.own.value.annotations, l.node.value, l.claim) != l.own.value.annotations
  }

  lemma AlreadyRecorded(s: State, n: Name)
    requires n in s.members && CodeGuard(s.pass, s.members[n].local, s.members[n].drain, MarkSlot)
    requires !RecordNeeded(s.members[n].local)
    ensures SlotTaken(s, s, n) && ReadyToFence(s, n) && Kept(s, s, {n})
  {
  }

  lemma SlotRecorded(s: State, t: State, u: State, n: Name)
    requires Answered(s, t, u, n, MarkSlot) && SamePass(s.pass, u.pass)
    ensures SlotTaken(s, u, n) && ReadyToFence(u, n)
  {
    var l := s.members[n].local;
    RecordIsStable(l.own.value.annotations, l.node.value, l.claim);
  }

  lemma ClaimIsFenced(s: State, t: State, u: State, n: Name)
    requires ReadyToFence(s, n) && Answered(s, t, u, n, FenceClaim)
    ensures ReadyToFence(u, n) && OnlyFenced(s, u, n) && ClaimFenced(u.members[n].local)
  {
    var l := s.members[n].local;
    RecordIsStable(l.own.value.annotations, l.node.value, l.claim);
  }

  lemma NodeIsFenced(s: State, t: State, u: State, n: Name)
    requires ReadyToFence(s, n) && ClaimFenced(s.members[n].local) && Answered(s, t, u, n, FenceNode)
    ensures OnlyFenced(s, u, n) && Fortified(u.members[n].local)
  {
  }

  lemma StillTaken(s: State, t: State, u: State, n: Name)
    requires SlotTaken(s, t, n) && OnlyFenced(t, u, n)
    ensures SlotTaken(s, u, n)
  {
  }

  /** The step after the first `i` of a run. */
  ghost predicate StepAt(acts: seq<Action>, trail: seq<State>, i: nat) {
    && i < |acts| && i + 1 < |trail|
    && Enabled(trail[i], acts[i]) && trail[i + 1] == Apply(trail[i], acts[i])
  }

  /** A run as the code leaves it: its steps and the states between them. */
  ghost predicate IsRun(origin: State, acts: seq<Action>, trail: seq<State>) {
    && |trail| == |acts| + 1 && trail[0] == origin
    && forall i: nat | i < |acts| :: StepAt(acts, trail, i)
  }

  lemma RunGrows(origin: State, acts: seq<Action>, trail: seq<State>, a: Action)
    requires IsRun(origin, acts, trail) && Enabled(trail[|acts|], a)
    ensures IsRun(origin, acts + [a], trail + [Apply(trail[|acts|], a)])
  {
    var acts', trail' := acts + [a], trail + [Apply(trail[|acts|], a)];
    forall i: nat | i < |acts'|
      ensures StepAt(acts', trail', i)
    {
      if i < |acts| { assert StepAt(acts, trail, i); }
    }
  }

  lemma RunPart(origin: State, acts: seq<Action>, trail: seq<State>, k: nat)
    requires IsRun(origin, acts, trail) && k <= |acts|
    ensures IsRun(origin, acts[..k], trail[..k + 1]) && IsRun(trail[k], acts[k..], trail[k..])
  {
    var a, b, x, y := acts[..k], acts[k..], trail[..k + 1], trail[k..];
    forall i: nat | i < |a|
      ensures StepAt(a, x, i)
    {
      assert StepAt(acts, trail, i);
    }
    forall i: nat | i < |b|
      ensures StepAt(b, y, i)
    {
      assert StepAt(acts, trail, k + i);
    }
  }

  lemma {:induction false} RunIsLegal(origin: State, acts: seq<Action>, trail: seq<State>)
    requires Inv(origin) && IsRun(origin, acts, trail)
    ensures Legal(origin, acts) && Replay(origin, acts) == trail[|acts|] && Inv(trail[|acts|])
    decreases |acts|
  {
    if acts != [] {
      var k := |acts| - 1;
      RunPart(origin, acts, trail, k);
      RunIsLegal(origin, acts[..k], trail[..k + 1]);
      assert StepAt(acts, trail, k);
      StepKeepsInv(trail[k], acts[k]);
    }
  }

  lemma NothingKept(s: State)
    ensures Kept(s, s, {})
  {
  }

  predicate OnlyRead(s: State, t: State, n: Name) {
    && n in s.members && n in t.members && t.pass == s.pass
    && t.members[n].local == s.members[n].local.(node := t.members[n].local.node, claim := t.members[n].local.claim)
    && t.members[n].local.node.Some?
    && DrainKept(s.members[n].drain, t.members[n].drain)
  }

  /** What the record says is off the Node: the cordon, the fences and, unless the node is leaving, the
      startup taint. */
  predicate NodeUndone(pass: Pass, l: Local, node: Node)
    requires l.own.Some?
  {
    var a := l.own.value.annotations;
    && (Lookup(a, WasCordoned) == Some("false") ==> !node.unschedulable)
    && (OwnsNodeRepair in a ==> DoNotRepair !in node.annotations)
    && (OwnsNodeDisrupt in a ==> DoNotDisrupt !in node.annotations)
    && (OwnsTaint in a && !Leaving(pass, l) ==> Taint(OsNotReady, NoSchedule) !in node.taints)
  }

  predicate UndoneTo(s: State, t: State, n: Name, progress: Restore) {
    && n in s.members && n in t.members && t.pass == s.pass
    && s.members[n].local.node.Some? && s.members[n].local.own.Some?
    && var l, l' := s.members[n].local, t.members[n].local;
    && l' == l.(node := l'.node, restore := progress) && l'.node.Some?
    && (if progress == NodeDone then NodeUndone(s.pass, l, l'.node.value) else l'.node == l.node)
    && l'.node.value.ready == l.node.value.ready && l'.node.value.managed == l.node.value.managed
    && DrainKept(s.members[n].drain, t.members[n].drain)
  }

  lemma StillFreeing(s: State, t: State, n: Name, progress: Restore)
    requires UndoneTo(s, t, n, progress) && Freeing(s.pass, s.members[n].local)
    ensures Freeing(t.pass, t.members[n].local)
  {
  }

  /** The record is cleared, and a taint it held is off the Node; nothing else of the pass's copy has
      changed. */
  predicate Released(s: State, t: State, n: Name) {
    && n in s.members && n in t.members && t.pass == s.pass
    && var l, l' := s.members[n].local, t.members[n].local;
    && l.own.Some? && l'.own == Some(l.own.value.(annotations := ClearedRecord(l.own.value.annotations)))
    && l'.node.Some? && NodeUndone(s.pass, l, l'.node.value)
    && DrainKept(s.members[n].drain, t.members[n].drain)
  }

  lemma UnmarkedIsReleased(s: State, s1: State, s2: State, t: State, u: State, n: Name)
    requires UndoneTo(s, s1, n, NodeDone) && UndoneTo(s1, s2, n, ClaimDone) && Answered(s2, t, u, n, Unmark)
    ensures Released(s, u, n)
  {
  }

  /** Something is left to release once the node is healthy. */
  predicate Marked(bn: BootcNode) {
    HasSlot(bn) || OwnsTaint in bn.annotations
  }

  /** After looking at an UpToDate node: if it is still marked, its Node was read and is not Ready;
      only annotations of the pass's copy have changed. */
  predicate Checked(s: State, t: State, n: Name, freed: bool) {
    && n in s.members && n in t.members && t.pass == s.pass
    && var l, l' := s.members[n].local, t.members[n].local;
    && l.own.Some? && l'.own.Some?
    && l'.own.value == l.own.value.(annotations := l'.own.value.annotations)
    && HasSlot(l.own.value) == (freed || HasSlot(l'.own.value)) && !(freed && HasSlot(l'.own.value))
    && (Marked(l'.own.value) ==> l'.node.Some? && l'.node.value.ready != True)
    && (OwnsTaint in l.own.value.annotations && OwnsTaint !in l'.own.value.annotations ==>
          l'.node.Some? && Taint(OsNotReady, NoSchedule) !in l'.node.value.taints)
    && DrainKept(s.members[n].drain, t.members[n].drain)
  }

  ghost function Names(s: seq<Name>): set<Name> {
    set n | n in s
  }

  lemma NamesStep(s: seq<Name>, i: nat)
    requires i < |s|
    ensures Names(s[..i + 1]) == Names(s[..i]) + {s[i]}
  {
    assert s[..i + 1] == s[..i] + [s[i]];
  }

  lemma KeptMore(s: State, t: State, x: set<Name>, y: set<Name>)
    requires Kept(s, t, x) && x <= y
    ensures Kept(s, t, y)
  {
  }

  /** How work on one node changes the slots the pass counts. */
  lemma OccupiedAfter(s: State, t: State, n: Name)
    requires Kept(s, t, {n}) && n in s.members && n in t.members
    requires s.members[n].local.own.Some? && t.members[n].local.own.Some?
    ensures var a, b := HasSlot(s.members[n].local.own.value), HasSlot(t.members[n].local.own.value);
            |Occupied(t)| == |Occupied(s)| + (if b then 1 else 0) - (if a then 1 else 0)
  {
    var x, y := Occupied(s), Occupied(t);
    forall k
      ensures k in y - {n} <==> k in x - {n}
    {
      if k in s.members && k != n { assert MemberKept(s.members[k], t.members[k]); }
    }
    assert y - {n} == x - {n};
    assert n in x ==> x == (x - {n}) + {n};
    assert n in y ==> y == (y - {n}) + {n};
    assert n !in x ==> x == x - {n};
    assert n !in y ==> y == y - {n};
  }

  predicate CheckedNode(m: Member, m': Member) {
    && m.local.own.Some? && m'.local.own.Some?
    && m'.local.own.value == m.local.own.value.(annotations := m'.local.own.value.annotations)
    && (HasSlot(m'.local.own.value) ==> HasSlot(m.local.own.value))
    && (Marked(m'.local.own.value) ==> m'.local.node.Some? && m'.local.node.value.ready != True)
    && DrainKept(m.drain, m'.drain)
  }

  lemma CheckedOnward(s: State, t: State, u: State, names: seq<Name>, i: nat)
    requires i < |names| && R.Distinct(names) && (forall n | n in names :: n in s.members)
    requires Kept(s, t, Names(names[..i])) && Kept(t, u, {names[i]})
    requires forall n | n in names[..i] :: n in t.members && CheckedNode(s.members[n], t.members[n])
    requires exists freed :: Checked(t, u, names[i], freed)
    ensures forall n | n in names[..i + 1] :: n in u.members && CheckedNode(s.members[n], u.members[n])
  {
    assert names[..i + 1] == names[..i] + [names[i]];
    assert names[i] in names && names[i] !in names[..i];
    forall n | n in names[..i + 1]
      ensures n in u.members && CheckedNode(s.members[n], u.members[n])
    {
      if n == names[i] {
        assert MemberKept(s.members[n], t.members[n]);
      } else {
        assert MemberKept(t.members[n], u.members[n]);
      }
    }
  }

  /** After drain results are collected: what had finished is gone, and an owned node whose drain
      had succeeded is approved; nobody is approved without a drain. */
  predicate CollectedNode(m: Member, m': Member) {
    && m'.local == m.local.(own := m'.local.own)
    && (m.local.own.Some? <==> m'.local.own.Some?)
    && (m.local.own.Some? ==>
          && m'.local.own.value == m.local.own.value.(approved := m'.local.own.value.approved)
          && (m.local.own.value.approved ==> m'.local.own.value.approved)
          && (m'.local.own.value.approved ==>
                m.local.own.value.approved || m.drain == Some(Running) || m.drain == Some(Finished(true)))
          && (m.drain == Some(Finished(true)) ==> m'.local.own.value.approved))
    && (m'.drain.Some? ==> m.drain == Some(Running))
  }

  lemma ConsumedIsCollected(s: State, t: State, u: State, n: Name, approve: bool)
    requires Answered(s, t, u, n, Collect(approve)) && s.members[n].drain.Some? && s.members[n].drain.value.Finished?
    requires s.members[n].drain.value.ok && s.members[n].local.own.Some? <==> approve
    ensures u.pass == s.pass && CollectedNode(s.members[n], u.members[n])
  {
  }

  lemma CollectedOnward(s: State, t: State, u: State, done: set<Name>, n: Name)
    requires n in s.members && n !in done && done <= s.members.Keys
    requires Kept(s, t, done) && Kept(t, u, {n})
    requires forall k | k in done :: k in t.members && CollectedNode(s.members[k], t.members[k])
    requires n in t.members && n in u.members && CollectedNode(t.members[n], u.members[n])
    ensures forall k | k in done + {n} :: k in u.members && CollectedNode(s.members[k], u.members[k])
  {
    forall k | k in done + {n}
      ensures k in u.members && CollectedNode(s.members[k], u.members[k])
    {
      if k == n {
        assert MemberKept(s.members[k], t.members[k]);
      } else {
        assert MemberKept(t.members[k], u.members[k]);
      }
    }
  }

  lemma UntouchedCollected(s: State, t: State, done: set<Name>)
    requires Kept(s, t, done)
    requires forall n | n in s.members && s.members[n].drain.Some? :: n in done
    requires forall n | n in done :: n in s.members && n in t.members && CollectedNode(s.members[n], t.members[n])
    ensures forall n | n in s.members :: n in t.members && CollectedNode(s.members[n], t.members[n])
  {
    forall n | n in s.members
      ensures n in t.members && CollectedNode(s.members[n], t.members[n])
    {
      if n !in done { assert MemberKept(s.members[n], t.members[n]); }
    }
  }

  lemma RefusedKeeps(s: State, t: State, u: State, n: Name)
    requires Kept(s, t, {}) && t.pass == s.pass && n in s.members && n in u.members
    requires s.pass.Busy? && s.pass.stage == Rolling
    requires s.members[n].drain.Some? && s.members[n].drain.value.Finished? && u.members[n].drain.Some?
    requires u == t || (Enabled(t, On(n, Collect(true))) && u == Apply(t, On(n, Collect(true))))
    ensures CodeGuard(u.pass, u.members[n].local, u.members[n].drain, Collect(false))
  {
    assert MemberKept(s.members[n], t.members[n]);
  }

  /** After a candidate is served or deferred; a deferred one was read and shows why. */
  predicate Processed(s: State, t: State, n: Name, served: bool) {
    && n in s.members && n in t.members && s.pass.Busy? && t.pass.Busy? && t.pass.limit == s.pass.limit
    && var l, l' := s.members[n].local, t.members[n].local;
    && l.own.Some? && l'.own.Some? && l'.node.Some? && l'.restore == l.restore
    && l'.own.value == l.own.value.(annotations := l'.own.value.annotations)
    && (if served then
          && HasSlot(l'.own.value) && Fortified(l')
          && t.pass.budget == (if HasSlot(l.own.value) then s.pass.budget else s.pass.budget - 1)
        else l'.own == l.own && t.pass.budget == s.pass.budget && Deferred(l'))
    && DrainKept(s.members[n].drain, t.members[n].drain)
  }

  predicate TendedNode(m: Member, m': Member) {
    && m.local.own.Some? && m'.local.own.Some?
    && m'.local.own.value == m.local.own.value.(annotations := m'.local.own.value.annotations)
    && (HasSlot(m.local.own.value) ==> HasSlot(m'.local.own.value))
    && m'.local.restore == m.local.restore && DrainKept(m.drain, m'.drain)
  }

  lemma TendedOnward(s: State, t: State, u: State, names: seq<Name>, i: nat)
    requires i < |names| && R.Distinct(names) && (forall n | n in names :: n in s.members)
    requires Kept(s, t, Names(names[..i])) && Kept(t, u, {names[i]})
    requires forall n | n in names[..i] :: n in t.members && TendedNode(s.members[n], t.members[n])
    requires exists served :: Processed(t, u, names[i], served)
    ensures forall n | n in names[..i + 1] :: n in u.members && TendedNode(s.members[n], u.members[n])
  {
    assert names[..i + 1] == names[..i] + [names[i]];
    assert names[i] in names && names[i] !in names[..i];
    forall n | n in names[..i + 1]
      ensures n in u.members && TendedNode(s.members[n], u.members[n])
    {
      if n == names[i] {
        assert MemberKept(s.members[n], t.members[n]);
      } else {
        assert MemberKept(t.members[n], u.members[n]);
      }
    }
  }

  /** What became of an unslotted candidate. */
  predicate ServedNode(m: Member, m': Member, served: bool, deferred: bool) {
    && TendedNode(m, m')
    && (HasSlot(m'.local.own.value) <==> served)
    && (deferred ==> m'.local.node.Some? && Deferred(m'.local))
  }

  lemma ServedOnward(s: State, t: State, u: State, names: seq<Name>, i: nat, served: seq<Name>, deferred: set<Name>, f: bool)
    requires i < |names| && R.Distinct(names) && (forall n | n in names :: n in s.members)
    requires Kept(s, t, Names(names[..i])) && Kept(t, u, {names[i]})
    requires (forall n | n in served :: n in names[..i]) && deferred <= Names(names[..i])
    requires s.members[names[i]].local.own.Some? && !HasSlot(s.members[names[i]].local.own.value)
    requires forall n | n in names[..i] ::
               n in t.members && ServedNode(s.members[n], t.members[n], n in served, n in deferred)
    requires Processed(t, u, names[i], f)
    ensures var served' := if f then served + [names[i]] else served;
            var deferred' := if f then deferred else deferred + {names[i]};
            forall n | n in names[..i + 1] ::
              n in u.members && ServedNode(s.members[n], u.members[n], n in served', n in deferred')
  {
    assert names[..i + 1] == names[..i] + [names[i]];
    assert names[i] in names && names[i] !in names[..i];
    var served' := if f then served + [names[i]] else served;
    var deferred' := if f then deferred else deferred + {names[i]};
    forall n | n in names[..i + 1]
      ensures n in u.members && ServedNode(s.members[n], u.members[n], n in served', n in deferred')
    {
      if n == names[i] {
        assert MemberKept(s.members[n], t.members[n]);
      } else {
        assert MemberKept(t.members[n], u.members[n]);
      }
    }
  }

  lemma RestServed(s: State, t: State, names: seq<Name>, i: nat, served: seq<Name>, deferred: set<Name>)
    requires i <= |names| && R.Distinct(names) && Kept(s, t, Names(names[..i]))
    requires (forall n | n in served :: n in names[..i]) && deferred <= Names(names[..i])
    requires forall n | n in names :: n in s.members && s.members[n].local.own.Some? && !HasSlot(s.members[n].local.own.value)
    requires forall n | n in names[..i] ::
               n in t.members && ServedNode(s.members[n], t.members[n], n in served, n in deferred)
    ensures forall n | n in names ::
              n in t.members && ServedNode(s.members[n], t.members[n], n in served, n in deferred)
  {
    forall n | n in names
      ensures n in t.members && ServedNode(s.members[n], t.members[n], n in served, n in deferred)
    {
      if n !in names[..i] { assert MemberKept(s.members[n], t.members[n]); }
    }
  }

  // ---- Allocation ---------------------------------------------------------------------------

  function Eligible(names: seq<Name>, deferred: set<Name>): seq<Name> {
    if names == [] then []
    else
      var k := |names| - 1;
      Eligible(names[..k], deferred) + if names[k] in deferred then [] else [names[k]]
  }

  /** The slots go to the first candidates, in order, that are not deferred: as many as there are, or
      as many as the budget allows. */
  predicate FirstServed(names: seq<Name>, deferred: set<Name>, served: seq<Name>, budget: nat) {
    && served <= Eligible(names, deferred)
    && |served| == if |Eligible(names, deferred)| <= budget then |Eligible(names, deferred)| else budget
  }

  lemma EligibleStep(names: seq<Name>, i: nat, deferred: set<Name>)
    requires i < |names| && R.Distinct(names) && deferred <= Names(names[..i])
    ensures Eligible(names[..i + 1], deferred) == Eligible(names[..i], deferred) + [names[i]]
    ensures Eligible(names[..i + 1], deferred + {names[i]}) == Eligible(names[..i], deferred)
  {
    assert names[..i + 1][..i] == names[..i];
    assert names[i] !in names[..i];
    EligibleIgnores(names[..i], deferred, names[i]);
  }

  lemma {:induction false} EligibleIgnores(names: seq<Name>, deferred: set<Name>, n: Name)
    requires n !in names
    ensures Eligible(names, deferred + {n}) == Eligible(names, deferred)
  {
    if names != [] { EligibleIgnores(names[..|names| - 1], deferred, n); }
  }

  lemma PrefixExtends<A>(x: seq<A>, y: seq<A>, z: seq<A>)
    requires x <= y
    ensures x <= y + z
  {
  }

  lemma {:induction false} EligiblePrefix(names: seq<Name>, i: nat, deferred: set<Name>)
    requires i <= |names|
    ensures Eligible(names[..i], deferred) <= Eligible(names, deferred)
    ensures i == |names| ==> Eligible(names[..i], deferred) == Eligible(names, deferred)
    decreases |names|
  {
    if i == |names| {
      assert names[..i] == names;
    } else {
      var k := |names| - 1;
      EligiblePrefix(names[..k], i, deferred);
      assert names[..k][..i] == names[..i];
      var x, y := Eligible(names[..i], deferred), Eligible(names[..k], deferred);
      var z := if names[k] in deferred then [] else [names[k]];
      PrefixExtends(x, y, z);
    }
  }

  /** After the drain loop: only reads and the drain itself have changed. */
  predicate DrainingNode(m: Member, m': Member) {
    && m.local.own.Some? && m'.local.own == m.local.own
    && m'.local == m.local.(node := m'.local.node, claim := m'.local.claim)
    && (m.drain.Some? ==> m'.drain.Some?)
    && (HasSlot(m.local.own.value) && !m.local.own.value.approved ==>
          m'.drain.Some? || (m'.local.node.Some? && Deferred(m'.local)))
    && (!HasSlot(m.local.own.value) || m.local.own.value.approved ==> m'.local == m.local)
  }

  lemma DrainingOnward(s: State, t: State, u: State, names: seq<Name>, i: nat)
    requires i < |names| && R.Distinct(names) && (forall n | n in names :: n in s.members)
    requires Kept(s, t, Names(names[..i])) && Kept(t, u, {names[i]}) && names[i] in t.members && names[i] in u.members
    requires forall n | n in names[..i] :: n in t.members && DrainingNode(s.members[n], t.members[n])
    requires DrainingNode(t.members[names[i]], u.members[names[i]])
    ensures forall n | n in names[..i + 1] :: n in u.members && DrainingNode(s.members[n], u.members[n])
  {
    assert names[..i + 1] == names[..i] + [names[i]];
    assert names[i] in names && names[i] !in names[..i];
    forall n | n in names[..i + 1]
      ensures n in u.members && DrainingNode(s.members[n], u.members[n])
    {
      if n == names[i] {
        assert MemberKept(s.members[n], t.members[n]);
      } else {
        assert MemberKept(t.members[n], u.members[n]);
      }
    }
  }

  // ---- Membership ---------------------------------------------------------------------------

  /** A pass that has just listed its nodes. */
  predicate FreshLists(s: State) {
    forall n | n in s.members ::
      s.members[n].local.restore == Untouched && (s.members[n].local.listed ==> s.members[n].local.node.Some?)
  }

  /** Nothing but the node's own undoing is under way, and the pass still means to remove it. */
  predicate StillLeaving(s: State, t: State, n: Name) {
    && n in s.members && n in t.members && t.pass == s.pass && Leaving(t.pass, t.members[n].local)
    && t.members[n].local.own == s.members[n].local.own
    && DrainKept(s.members[n].drain, t.members[n].drain)
  }

  /** No BootcNode, no drain. */
  predicate Unmanaged(m: Member) {
    m.local.own.None? && m.bn.None? && m.drain.None?
  }

  lemma DeletedIsUnmanaged(s: State, n: Name)
    requires Enabled(s, On(n, Delete)) && CodeGuard(s.pass, s.members[n].local, s.members[n].drain, Delete)
    ensures Unmanaged(Apply(s, On(n, Delete)).members[n])
  {
  }

  lemma CancelledOnly(s: State, t: State, n: Name)
    requires Answered(s, s, t, n, CancelDrain)
    ensures t.pass == s.pass && t.members[n].local == s.members[n].local && t.members[n].drain.None?
  {
  }

  /** A BootcNode as first created; it owns the startup taint exactly if the Node carries it. */
  function Newborn(pass: Pass, node: Node): BootcNode
    requires pass.Busy?
  {
    BootcNode(Some(pass.pool), pass.image, false,
              if HasStartupTaint(node.taints) then map[OwnsTaint := "true"] else map[], NO_STATUS)
  }

  /** A changed image revokes the approval; the same image leaves everything as it is. */
  function Retargeted(pass: Pass, bn: BootcNode): BootcNode
    requires pass.Busy?
  {
    if bn.desired == pass.image then bn else bn.(desired := pass.image, approved := false)
  }

  /** What syncing leaves of a listed node: an owned one is retargeted, a free one adopted, and one
      that has a BootcNode of somebody else is left alone. */
  predicate SyncedNode(pass: Pass, m: Member, m': Member)
    requires pass.Busy?
  {
    && m'.local.listed == m.local.listed && m'.local.restore == m.local.restore
    && (if m.local.own.Some? then m'.local.own == Some(Retargeted(pass, m.local.own.value))
        else if m.bn.None? then m.local.node.Some? && m'.local.own == Some(Newborn(pass, m.local.node.value))
        else m'.local.own.None? && m'.bn.Some? && m'.bn.value.owner == m.bn.value.owner)
    && (m'.local.own.Some? ==> m'.local.node.Some? && m'.local.node.value.managed != Unlabelled)
    && DrainKept(m.drain, m'.drain)
  }

  /** Everything membership does to one node. */
  predicate JoinedNode(pass: Pass, m: Member, m': Member)
    requires pass.Busy?
  {
    if m.local.listed then SyncedNode(pass, m, m')
    else if m.local.own.Some? then Unmanaged(m')
    else MemberKept(m, m')
  }

  predicate Joined(s: State, t: State) {
    && SamePass(s.pass, t.pass) && s.pass.Busy?
    && s.members.Keys <= t.members.Keys
    && (forall n | n in s.members :: JoinedNode(s.pass, s.members[n], t.members[n]))
    && (forall n | n in t.members && n !in s.members :: Blank(t.members[n]))
  }

  /** The pool that stands in the way of adopting a node. */
  function Rival(m: Member): Option<Pool> {
    if m.local.listed && m.local.own.None? && m.bn.Some? then m.bn.value.owner else None
  }

  function Rivals(s: State, names: set<Name>): set<Pool>
    requires names <= s.members.Keys
  {
    set n | n in names && Rival(s.members[n]).Some? :: Rival(s.members[n]).value
  }

  lemma RivalsStep(s: State, names: set<Name>, n: Name)
    requires names <= s.members.Keys && n in s.members
    ensures var r := Rival(s.members[n]);
            Rivals(s, names + {n}) == Rivals(s, names) + if r.Some? then {r.value} else {}
  {
    var r := Rival(s.members[n]);
    forall p
      ensures p in Rivals(s, names + {n}) <==> p in Rivals(s, names) || r == Some(p)
    {
      if p in Rivals(s, names + {n}) && r != Some(p) {
        var k :| k in names + {n} && Rival(s.members[k]) == Some(p);
        assert k in names;
      }
      if p in Rivals(s, names) {
        var k :| k in names && Rival(s.members[k]) == Some(p);
        assert k in names + {n};
      }
      if r == Some(p) { assert n in names + {n}; }
    }
  }

  function ListedNames(s: State): set<Name> {
    set n | n in s.members && s.members[n].local.listed
  }

  /** Owned, but not selected any more. */
  function DepartedNames(s: State): set<Name> {
    set n | n in s.members && s.members[n].local.own.Some? && !s.members[n].local.listed
  }

  lemma RivalsAmongListed(s: State)
    ensures Rivals(s, ListedNames(s)) == Rivals(s, s.members.Keys)
  {
    forall p | p in Rivals(s, s.members.Keys)
      ensures p in Rivals(s, ListedNames(s))
    {
      var k :| k in s.members && Rival(s.members[k]) == Some(p);
      assert k in ListedNames(s);
    }
  }

  lemma SyncedOnward(s: State, t: State, u: State, done: set<Name>, n: Name)
    requires s.pass.Busy? && t.pass == s.pass && n in s.members && n !in done && done <= s.members.Keys
    requires Kept(s, t, done) && Kept(t, u, {n})
    requires forall k | k in done :: k in t.members && SyncedNode(s.pass, s.members[k], t.members[k])
    requires n in t.members && n in u.members && SyncedNode(t.pass, t.members[n], u.members[n])
    ensures forall k | k in done + {n} :: k in u.members && SyncedNode(s.pass, s.members[k], u.members[k])
  {
    forall k | k in done + {n}
      ensures k in u.members && SyncedNode(s.pass, s.members[k], u.members[k])
    {
      if k == n {
        assert MemberKept(s.members[k], t.members[k]);
      } else {
        assert MemberKept(t.members[k], u.members[k]);
      }
    }
  }

  lemma RemovedOnward(s: State, t: State, u: State, done: set<Name>, n: Name)
    requires Kept(s, t, done) && Kept(t, u, {n}) && n !in done && done <= s.members.Keys && n in s.members
    requires forall k | k in done :: k in t.members && Unmanaged(t.members[k])
    requires n in u.members && Unmanaged(u.members[n])
    ensures forall k | k in done + {n} :: k in u.members && Unmanaged(u.members[k])
  {
    forall k | k in done + {n}
      ensures k in u.members && Unmanaged(u.members[k])
    {
      if k != n { assert MemberKept(t.members[k], u.members[k]); }
    }
  }

  lemma DepartedUntouched(s: State, t: State)
    requires FreshLists(s) && s.pass.Busy? && s.pass.stage == Syncing && t.pass == s.pass && Kept(s, t, ListedNames(s))
    requires forall n | n in ListedNames(s) :: n in t.members && SyncedNode(s.pass, s.members[n], t.members[n])
    ensures forall n | n in DepartedNames(t) ::
              n in t.members && Leaving(t.pass, t.members[n].local) && t.members[n].local.restore == Untouched
  {
    forall n | n in DepartedNames(t)
      ensures t.members[n].local.restore == Untouched
    {
      if n in s.members && n !in ListedNames(s) { assert MemberKept(s.members[n], t.members[n]); }
    }
  }

  lemma JoinedBoth(s: State, t: State, u: State)
    requires s.pass.Busy? && t.pass == s.pass && Kept(s, t, ListedNames(s)) && Kept(t, u, DepartedNames(t))
    requires forall n | n in ListedNames(s) :: n in t.members && SyncedNode(s.pass, s.members[n], t.members[n])
    requires forall n | n in DepartedNames(t) :: n in u.members && Unmanaged(u.members[n])
    ensures Joined(s, u)
  {
    forall n | n in s.members
      ensures JoinedNode(s.pass, s.members[n], u.members[n])
    {
      if n in ListedNames(s) {
        assert n !in DepartedNames(t);
        assert MemberKept(t.members[n], u.members[n]);
      } else {
        assert MemberKept(s.members[n], t.members[n]);
      }
    }
    forall n | n in u.members && n !in s.members
      ensures Blank(u.members[n])
    {
      if n in t.members { assert MemberKept(t.members[n], u.members[n]); }
    }
  }

  lemma JoinedMayRoll(s: State, t: State)
    requires Joined(s, t) && FreshLists(s) && t.pass == s.pass && t.pass.stage == Syncing
    ensures Enabled(t, Roll) && AllUntouched(t)
  {
    forall n | n in t.members && t.members[n].local.own.Some?
      ensures t.members[n].local.listed && t.members[n].local.own.value.desired == t.pass.image
      ensures t.members[n].local.restore == Untouched
    {
      if n in s.members { assert JoinedNode(s.pass, s.members[n], t.members[n]); }
    }
  }

  // ---- Putting the rollout together -----------------------------------------------------------

  /** The pass's own copies, by name. */
  function OwnMap(s: State): R.Owned {
    map n | n in s.members && s.members[n].local.own.Some? :: s.members[n].local.own.value
  }

  predicate Serviceable(s: State, names: seq<Name>) {
    forall n | n in names ::
      n in s.members && s.members[n].local.restore == Untouched && Candidate(s.pass, s.members[n].local, Staged)
  }

  /** What a pass leaves of a staged node. */
  predicate DoneNode(m: Member, m': Member, served: bool, deferred: bool) {
    && m.local.own.Some? && m'.local.own.Some?
    && m'.local.own.value == m.local.own.value.(annotations := m'.local.own.value.annotations)
    && (HasSlot(m'.local.own.value) <==> HasSlot(m.local.own.value) || served)
    && (HasSlot(m'.local.own.value) && !m'.local.own.value.approved ==>
          m'.drain.Some? || (m'.local.node.Some? && Deferred(m'.local)))
    && (deferred && !HasSlot(m'.local.own.value) ==> m'.local.node.Some? && Deferred(m'.local))
  }

  lemma OrderedDistinct(names: seq<Name>)
    requires R.InOrder(names)
    ensures R.Distinct(names)
  {
    forall i, j | 0 <= i < j < |names|
      ensures names[i] != names[j]
    {
      R.BeforeTrichotomy(names[i], names[j]);
    }
  }

  lemma PartsOfStaged(s: State, staged: seq<Name>, slotted: seq<Name>, unslotted: seq<Name>)
    requires Serviceable(s, staged)
    requires forall n :: n in slotted <==> n in staged && HasSlot(OwnMap(s)[n])
    requires forall n :: n in unslotted <==> n in staged && !HasSlot(OwnMap(s)[n])
    ensures Names(slotted) <= Names(staged) && Names(unslotted) <= Names(staged)
    ensures forall n | n in slotted :: n in staged && HasSlot(s.members[n].local.own.value)
    ensures forall n | n in unslotted :: n in staged && !HasSlot(s.members[n].local.own.value)
    ensures forall n | n in staged :: n in slotted || n in unslotted
  {
  }

  lemma OthersServiceable(s: State, t: State, staged: seq<Name>, slotted: seq<Name>, unslotted: seq<Name>)
    requires Serviceable(s, staged) && Kept(s, t, Names(slotted)) && t.pass == s.pass
    requires forall n | n in slotted :: n in staged && HasSlot(s.members[n].local.own.value)
    requires forall n | n in unslotted :: n in staged && !HasSlot(s.members[n].local.own.value)
    requires forall n | n in slotted :: n in t.members && TendedNode(s.members[n], t.members[n])
    ensures forall n | n in unslotted ::
              && n in t.members && t.members[n].local.restore == Untouched
              && Candidate(t.pass, t.members[n].local, Staged) && !HasSlot(t.members[n].local.own.value)
    ensures forall n | n in unslotted :: MemberKept(s.members[n], t.members[n])
  {
    forall n | n in unslotted
      ensures MemberKept(s.members[n], t.members[n])
    {
      assert n !in slotted;
    }
  }

  lemma StagedAfterServing(s: State, t: State, u: State, staged: seq<Name>, slotted: seq<Name>, unslotted: seq<Name>,
                           served: seq<Name>, deferred: set<Name>)
    requires Serviceable(s, staged) && t.pass == s.pass && SamePass(t.pass, u.pass)
    requires Kept(s, t, Names(slotted)) && Kept(t, u, Names(unslotted))
    requires forall n | n in slotted :: n in staged && HasSlot(s.members[n].local.own.value)
    requires forall n | n in unslotted :: n in staged && !HasSlot(s.members[n].local.own.value)
    requires forall n | n in staged :: n in slotted || n in unslotted
    requires forall n | n in slotted :: n in t.members && TendedNode(s.members[n], t.members[n])
    requires forall n | n in unslotted :: MemberKept(s.members[n], t.members[n])
    requires forall n | n in served :: n in unslotted
    requires forall n | n in unslotted ::
               n in t.members && n in u.members && ServedNode(t.members[n], u.members[n], n in served, n in deferred)
    ensures Serviceable(u, staged)
    ensures forall n | n in staged :: n in u.members && MidNode(s.members[n], u.members[n], n in served, n in deferred)
  {
    forall n | n in staged
      ensures n in u.members && u.members[n].local.restore == Untouched && Candidate(u.pass, u.members[n].local, Staged)
      ensures MidNode(s.members[n], u.members[n], n in served, n in deferred)
    {
      if n in slotted {
        assert n !in unslotted;
        SlottedMid(s.members[n], t.members[n], u.members[n], n in deferred);
      } else {
        UnslottedMid(s.members[n], t.members[n], u.members[n], n in served, n in deferred);
      }
    }
  }

  lemma SlottedMid(m: Member, m1: Member, m2: Member, deferred: bool)
    requires TendedNode(m, m1) && MemberKept(m1, m2) && HasSlot(m.local.own.value)
    ensures MidNode(m, m2, false, deferred) && m2.local.restore == m.local.restore
    ensures ClassifyNode(m2.local.own.value) == ClassifyNode(m.local.own.value)
  {
  }

  lemma UnslottedMid(m: Member, m1: Member, m2: Member, served: bool, deferred: bool)
    requires MemberKept(m, m1) && ServedNode(m1, m2, served, deferred) && !HasSlot(m1.local.own.value)
    ensures MidNode(m, m2, served, deferred) && m2.local.restore == m.local.restore
    ensures ClassifyNode(m2.local.own.value) == ClassifyNode(m.local.own.value)
  {
  }

  /** A staged node between serving and draining. */
  predicate MidNode(m: Member, m': Member, served: bool, deferred: bool) {
    && m.local.own.Some? && m'.local.own.Some?
    && m'.local.own.value == m.local.own.value.(annotations := m'.local.own.value.annotations)
    && (HasSlot(m'.local.own.value) <==> HasSlot(m.local.own.value) || served)
    && (deferred && !HasSlot(m'.local.own.value) ==> m'.local.node.Some? && Deferred(m'.local))
  }

  lemma StagedAfterDrains(s: State, t: State, u: State, staged: seq<Name>, served: seq<Name>, deferred: set<Name>)
    requires forall n | n in staged ::
               n in s.members && n in t.members && MidNode(s.members[n], t.members[n], n in served, n in deferred)
    requires forall n | n in staged :: n in u.members && DrainingNode(t.members[n], u.members[n])
    ensures forall n | n in staged :: n in u.members && DoneNode(s.members[n], u.members[n], n in served, n in deferred)
  {
  }

  lemma OccupiedSame(s: State, t: State, names: seq<Name>)
    requires Kept(s, t, Names(names))
    requires forall n | n in names :: n in s.members && n in t.members && DrainingNode(s.members[n], t.members[n])
    ensures Occupied(t) == Occupied(s)
  {
    forall n
      ensures n in Occupied(t) <==> n in Occupied(s)
    {
      if n in s.members && n !in names { assert MemberKept(s.members[n], t.members[n]); }
    }
  }

  predicate AllUntouched(s: State) {
    forall n | n in s.members && s.members[n].local.own.Some? :: s.members[n].local.restore == Untouched
  }

  lemma StillUntouched(s: State, t: State)
    requires AllUntouched(s) && Kept(s, t, s.members.Keys)
    requires forall n | n in s.members :: n in t.members && CollectedNode(s.members[n], t.members[n])
    ensures AllUntouched(t)
  {
    forall n | n in t.members && t.members[n].local.own.Some?
      ensures t.members[n].local.restore == Untouched
    {
      if n in s.members { assert CollectedNode(s.members[n], t.members[n]); }
    }
  }

  /** What surveying leaves of a node: no slot and no drain is added, an UpToDate node stays marked
      only if its Node was read and is not Ready, and the copies of the others keep their marks. */
  predicate SurveyedNode(m: Member, m': Member) {
    && (m.local.own.Some? <==> m'.local.own.Some?)
    && (m.local.own.Some? ==>
          var own, own' := m.local.own.value, m'.local.own.value;
          && own' == own.(approved := own'.approved, annotations := own'.annotations)
          && (HasSlot(own') ==> HasSlot(own))
          && (own.approved ==> own'.approved)
          && (m.drain == Some(Finished(true)) ==> own'.approved)
          && (if ClassifyNode(own) == Some(UpToDate)
              then Marked(own') ==> m'.local.node.Some? && m'.local.node.value.ready != True
              else own'.annotations == own.annotations && m'.local.restore == m.local.restore))
    && (m'.drain.Some? ==> m.drain.Some?)
    && (m.drain.Some? && m.drain.value.Finished? ==> m'.drain.None?)
  }

  predicate Surveyed(s: State, t: State) {
    && s.members.Keys <= t.members.Keys
    && (forall n | n in s.members :: SurveyedNode(s.members[n], t.members[n]))
    && (forall n | n in t.members && n !in s.members :: Blank(t.members[n]))
  }

  lemma CheckedSurveyed(m: Member, m1: Member, m2: Member)
    requires CollectedNode(m, m1) && CheckedNode(m1, m2) && ClassifyNode(m1.local.own.value) == Some(UpToDate)
    ensures SurveyedNode(m, m2)
  {
  }

  lemma KeptSurveyed(m: Member, m1: Member, m2: Member)
    requires CollectedNode(m, m1) && MemberKept(m1, m2)
    requires m1.local.own.Some? ==> ClassifyNode(m1.local.own.value) != Some(UpToDate)
    ensures SurveyedNode(m, m2)
  {
  }

  lemma SurveyedBoth(s: State, t: State, u: State, upToDate: seq<Name>)
    requires Kept(s, t, s.members.Keys) && Kept(t, u, Names(upToDate))
    requires forall n | n in s.members :: n in t.members && CollectedNode(s.members[n], t.members[n])
    requires forall n | n in t.members && t.members[n].local.own.Some? ::
               n in upToDate <==> ClassifyNode(t.members[n].local.own.value) == Some(UpToDate)
    requires forall n | n in upToDate :: n in t.members && n in u.members && CheckedNode(t.members[n], u.members[n])
    ensures Surveyed(s, u)
  {
    forall n | n in s.members
      ensures SurveyedNode(s.members[n], u.members[n])
    {
      if n in upToDate {
        CheckedSurveyed(s.members[n], t.members[n], u.members[n]);
      } else {
        KeptSurveyed(s.members[n], t.members[n], u.members[n]);
      }
    }
    forall n | n in u.members && n !in s.members
      ensures Blank(u.members[n])
    {
      if n in t.members && n !in upToDate { assert MemberKept(t.members[n], u.members[n]); }
    }
  }

  lemma SlottedIsOccupied(s: State)
    ensures R.SlottedNames(OwnMap(s), OwnMap(s).Keys) == Occupied(s)
  {
  }

  lemma UpToDateCandidates(s: State, b: R.Buckets)
    requires s.pass.Busy? && s.pass.stage == Rolling && AllUntouched(s)
    requires R.Classified(b, OwnMap(s), OwnMap(s).Keys)
    ensures R.Distinct(b.upToDate)
    ensures forall n | n in b.upToDate ::
              n in s.members && s.members[n].local.restore == Untouched && Candidate(s.pass, s.members[n].local, UpToDate)
    ensures forall n | n in s.members && s.members[n].local.own.Some? ::
              n in b.upToDate <==> ClassifyNode(s.members[n].local.own.value) == Some(UpToDate)
  {
    assert R.Distinct(R.Bucket(b, Some(UpToDate)));
    forall n
      ensures n in b.upToDate <==> n in OwnMap(s) && ClassifyNode(OwnMap(s)[n]) == Some(UpToDate)
    {
      assert n in R.Bucket(b, Some(UpToDate)) <==> n in OwnMap(s) && ClassifyNode(OwnMap(s)[n]) == Some(UpToDate);
    }
  }

  /** Freeing changes annotations only, which classification does not look at. */
  lemma CopiesKept(s: State, t: State, names: seq<Name>)
    requires Kept(s, t, Names(names))
    requires forall n | n in names :: n in s.members && n in t.members && CheckedNode(s.members[n], t.members[n])
    ensures OwnMap(s).Keys == OwnMap(t).Keys
    ensures forall n | n in OwnMap(s) ::
              OwnMap(t)[n] == OwnMap(s)[n].(annotations := OwnMap(t)[n].annotations)
  {
    forall n
      ensures n in OwnMap(s) <==> n in OwnMap(t)
    {
      if n in s.members && n !in names { assert MemberKept(s.members[n], t.members[n]); }
    }
    forall n | n in OwnMap(s)
      ensures OwnMap(t)[n] == OwnMap(s)[n].(annotations := OwnMap(t)[n].annotations)
    {
      if n !in names { assert MemberKept(s.members[n], t.members[n]); }
    }
  }

  /** While rolling, every copy desires the image of the pass. */
  lemma RunAgreesWithPass(origin: State, acts: seq<Action>, trail: seq<State>)
    requires Inv(origin) && IsRun(origin, acts, trail)
    requires trail[|acts|].pass.Busy? && trail[|acts|].pass.stage == Rolling
    ensures forall n | n in OwnMap(trail[|acts|]) :: OwnMap(trail[|acts|])[n].desired == trail[|acts|].pass.image
  {
    RunIsLegal(origin, acts, trail);
    var t := trail[|acts|];
    forall n | n in OwnMap(t)
      ensures OwnMap(t)[n].desired == t.pass.image
    {
      assert Good(t.pass, t.members[n]);
    }
  }

  /** What a pass has seen of its nodes: their BootcNodes, sorted into buckets, and when the next of their
      reboots could time out. */
  datatype View = View(owned: R.Owned, buckets: R.Buckets, wake: int)

  datatype Result =
    | Failed
    | InvalidSpec(view: View)
    | Halted(unhealthy: seq<R.Unhealthy>, view: View)
    | Done(limit: int, candidates: seq<Name>, served: seq<Name>, deferred: set<Name>, view: View)

  /** Nothing the pass could still do: an UpToDate node that is still marked was seen not Ready; a staged
      slot holder is approved, draining or deferred; a staged node without a slot is deferred, or no
      slot is left. */
  predicate SettledNode(m: Member, full: bool) {
    m.local.own.Some? ==>
      var l, own := m.local, m.local.own.value;
      && (ClassifyNode(own) == Some(UpToDate) && Marked(own) ==> l.node.Some? && l.node.value.ready != True)
      && (ClassifyNode(own) == Some(Staged) && HasSlot(own) && !own.approved ==>
            m.drain.Some? || (l.node.Some? && Deferred(l)))
      && (ClassifyNode(own) == Some(Staged) && !HasSlot(own) ==> full || (l.node.Some? && Deferred(l)))
  }

  predicate Settled(s: State, limit: int) {
    forall n | n in s.members :: SettledNode(s.members[n], |Occupied(s)| >= limit)
  }

  /** A staged node that holds no slot but one this pass gave it. */
  predicate CandidateBefore(t: State, served: seq<Name>, n: Name) {
    && n in t.members && t.members[n].local.own.Some?
    && ClassifyNode(t.members[n].local.own.value) == Some(Staged)
    && (HasSlot(t.members[n].local.own.value) ==> n in served)
  }

  /** The pass read the node and found it held back by Karpenter. */
  predicate SeenDeferred(t: State, n: Name) {
    n in t.members && t.members[n].local.node.Some? && Deferred(t.members[n].local)
  }

  /** New slots went to exactly the first eligible candidates by name, up to the free capacity: the
      candidates are the staged nodes that had no slot, those found deferred are passed over. */
  ghost predicate Allocated(s: State, t: State, r: Result)
    requires r.Done?
  {
    && R.InOrder(r.candidates)
    && (forall n :: n in r.candidates <==> CandidateBefore(t, r.served, n))
    && (forall n | n in r.candidates :: n in s.members && s.members[n].local.own.Some? && !HasSlot(s.members[n].local.own.value))
    && (forall n | n in r.candidates && n in r.deferred :: SeenDeferred(t, n))
    && (forall n | n in Occupied(t) :: n in Occupied(s) || n in r.served)
    && (forall n | n in r.served :: n in Occupied(t))
    && var free := r.limit - (|Occupied(t)| - |r.served|);
       FirstServed(r.candidates, r.deferred, r.served, if free > 0 then free else 0)
  }

  /** What is served depends only on who the candidates are and which of them Karpenter holds back:
      `held` may name more than the pass came across, as long as it names nobody who was served. */
  lemma {:induction false} ServedForHeld(names: seq<Name>, deferred: set<Name>, held: set<Name>, served: seq<Name>)
    requires served <= Eligible(names, deferred)
    requires (forall n | n in names && n in deferred :: n in held) && forall n | n in served :: n !in held
    ensures served <= Eligible(names, held)
    ensures |Eligible(names, held)| <= |Eligible(names, deferred)|
    decreases |names|
  {
    if names != [] {
      var k := |names| - 1;
      var front, x := names[..k], names[k];
      var e := Eligible(front, deferred);
      assert x in names && forall n | n in front :: n in names;
      if |served| <= |e| {
        assert served <= e;
        ServedForHeld(front, deferred, held, served);
        PrefixExtends(served, Eligible(front, held), if x in held then [] else [x]);
      } else {
        assert served == e + [x] && served[|e|] == x;
        assert forall n | n in e :: n in served;
        ServedForHeld(front, deferred, held, e);
        assert e == Eligible(front, held);
      }
    }
  }

  /** Allocation is deterministic: two passes with the same candidates, the same free capacity and the
      same nodes held back by Karpenter serve the same nodes in the same order, whatever the order in
      which maps are iterated. */
  lemma AllocationIsDeterministic(names: seq<Name>, deferred: set<Name>, served: seq<Name>,
                                  names': seq<Name>, deferred': set<Name>, served': seq<Name>,
                                  held: set<Name>, budget: nat)
    requires R.InOrder(names) && R.InOrder(names') && forall n :: n in names <==> n in names'
    requires FirstServed(names, deferred, served, budget) && FirstServed(names', deferred', served', budget)
    requires (forall n | n in names && n in deferred :: n in held) && forall n | n in served :: n !in held
    requires (forall n | n in names' && n in deferred' :: n in held) && forall n | n in served' :: n !in held
    ensures served == served'
  {
    R.InOrderUnique(names, names');
    ServedForHeld(names, deferred, held, served);
    ServedForHeld(names, deferred', held, served');
    assert |served| == |served'|;
  }

  lemma AllotKeepsLocals(s: State, limit: int)
    requires Enabled(s, Allot(limit))
    ensures Apply(s, Allot(limit)).members == s.members && Occupied(Apply(s, Allot(limit))) == Occupied(s)
    ensures SamePass(s.pass, Apply(s, Allot(limit)).pass)
  {
  }

  /** The staged bucket is exactly the staged candidates. */
  ghost predicate StagedBucket(s: State, staged: seq<Name>) {
    && R.Distinct(staged) && Serviceable(s, staged)
    && forall n | n in s.members && s.members[n].local.own.Some? ::
         n in staged <==> ClassifyNode(s.members[n].local.own.value) == Some(Staged)
  }

  lemma StagedServiceable(s0: State, s1: State, s: State, b: R.Buckets)
    requires AllUntouched(s0) && Surveyed(s0, s1) && s.members == s1.members
    requires s.pass.Busy? && s.pass.stage == Rolling
    requires R.Classified(b, OwnMap(s1), OwnMap(s1).Keys)
    ensures StagedBucket(s, b.staged) && Surveyed(s0, s)
  {
    StagedNames(s, b);
    forall n | n in b.staged
      ensures n in s.members && s.members[n].local.restore == Untouched && Candidate(s.pass, s.members[n].local, Staged)
    {
      if n in s0.members { assert SurveyedNode(s0.members[n], s.members[n]); }
    }
  }

  lemma StagedNames(s: State, b: R.Buckets)
    requires R.Classified(b, OwnMap(s), OwnMap(s).Keys)
    ensures R.Distinct(b.staged)
    ensures forall n :: n in b.staged <==> n in OwnMap(s) && ClassifyNode(OwnMap(s)[n]) == Some(Staged)
  {
    assert R.Distinct(R.Bucket(b, Some(Staged)));
    forall n
      ensures n in b.staged <==> n in OwnMap(s) && ClassifyNode(OwnMap(s)[n]) == Some(Staged)
    {
      assert n in R.Bucket(b, Some(Staged)) <==> n in OwnMap(s) && ClassifyNode(OwnMap(s)[n]) == Some(Staged);
    }
  }

  /** Everything AssignAndDrain promises, in one place. */
  ghost predicate StagedDone(s: State, t: State, staged: seq<Name>, r: Result, available: nat)
    requires r.Done?
  {
    && Kept(s, t, Names(staged))
    && (forall n | n in staged :: n in s.members && s.members[n].local.own.Some?)
    && R.InOrder(r.candidates) && FirstServed(r.candidates, r.deferred, r.served, available)
    && (forall n :: n in r.candidates <==> n in staged && !HasSlot(s.members[n].local.own.value))
    && |Occupied(t)| == |Occupied(s)| + |r.served|
    && (forall n | n in staged :: n in t.members && DoneNode(s.members[n], t.members[n], n in r.served, n in r.deferred))
  }

  lemma {:induction false} EligibleMembers(names: seq<Name>, deferred: set<Name>)
    ensures forall n | n in Eligible(names, deferred) :: n in names && n !in deferred
  {
    if names != [] { EligibleMembers(names[..|names| - 1], deferred); }
  }

  lemma ServedAreCandidates(names: seq<Name>, deferred: set<Name>, served: seq<Name>, budget: nat)
    requires FirstServed(names, deferred, served, budget)
    ensures forall n | n in served :: n in names && n !in deferred
  {
    EligibleMembers(names, deferred);
    forall n | n in served
      ensures n in names && n !in deferred
    {
      var k :| 0 <= k < |served| && served[k] == n;
      assert Eligible(names, deferred)[k] == n;
    }
  }

  lemma {:induction false} LeftOverIsEligible(names: seq<Name>, deferred: set<Name>, n: Name)
    requires n in names && n !in deferred
    ensures n in Eligible(names, deferred)
  {
    var k := |names| - 1;
    if names[k] != n {
      assert names == names[..k] + [names[k]];
      LeftOverIsEligible(names[..k], deferred, n);
    }
  }

  /** A candidate that is neither served nor deferred is left only for want of capacity. */
  lemma LeftOverMeansFull(names: seq<Name>, deferred: set<Name>, served: seq<Name>, budget: nat, n: Name)
    requires FirstServed(names, deferred, served, budget) && n in names && n !in deferred && n !in served
    ensures |served| == budget
  {
    LeftOverIsEligible(names, deferred, n);
    var e := Eligible(names, deferred);
    assert |served| == |e| ==> served == e;
  }

  lemma CandidateAtEnd(s: State, t: State, staged: seq<Name>, r: Result, available: nat, n: Name)
    requires r.Done? && StagedBucket(s, staged) && StagedDone(s, t, staged, r, available)
    ensures n in r.candidates <==> CandidateBefore(t, r.served, n)
    ensures n in r.served ==> n in Occupied(t)
    ensures n in Occupied(t) ==> n in Occupied(s) || n in r.served
  {
    ServedAreCandidates(r.candidates, r.deferred, r.served, available);
    if n in staged {
      assert DoneNode(s.members[n], t.members[n], n in r.served, n in r.deferred);
    } else if n in s.members {
      assert MemberKept(s.members[n], t.members[n]);
    }
  }

  lemma CandidatesAtEnd(s: State, t: State, staged: seq<Name>, r: Result, available: nat)
    requires r.Done? && StagedBucket(s, staged) && StagedDone(s, t, staged, r, available)
    ensures forall n :: n in r.candidates <==> CandidateBefore(t, r.served, n)
    ensures forall n | n in r.served :: n in Occupied(t)
    ensures forall n | n in Occupied(t) :: n in Occupied(s) || n in r.served
  {
    forall n
      ensures n in r.candidates <==> CandidateBefore(t, r.served, n)
      ensures n in r.served ==> n in Occupied(t)
      ensures n in Occupied(t) ==> n in Occupied(s) || n in r.served
    {
      CandidateAtEnd(s, t, staged, r, available, n);
    }
  }

  lemma BeforeThePass(s0: State, s: State, staged: seq<Name>, r: Result)
    requires r.Done? && Surveyed(s0, s) && StagedBucket(s, staged)
    requires forall n :: n in r.candidates <==> n in staged && !HasSlot(s.members[n].local.own.value)
    ensures forall n | n in r.candidates ::
              n in s0.members && s0.members[n].local.own.Some? && !HasSlot(s0.members[n].local.own.value)
    ensures Occupied(s) <= Occupied(s0)
  {
    forall n | n in r.candidates
      ensures n in s0.members && s0.members[n].local.own.Some? && !HasSlot(s0.members[n].local.own.value)
    {
      SurveyedCopy(s0, s, staged, n);
    }
    forall n | n in Occupied(s)
      ensures n in Occupied(s0)
    {
      SurveyedCopy(s0, s, staged, n);
    }
  }

  lemma DeferredAtEnd(s: State, t: State, staged: seq<Name>, r: Result, available: nat)
    requires r.Done? && StagedDone(s, t, staged, r, available)
    ensures forall n | n in r.candidates && n in r.deferred :: SeenDeferred(t, n)
  {
    ServedAreCandidates(r.candidates, r.deferred, r.served, available);
    forall n | n in r.candidates && n in r.deferred
      ensures SeenDeferred(t, n)
    {
      assert DoneNode(s.members[n], t.members[n], n in r.served, n in r.deferred);
    }
  }

  lemma AllocatedAtEnd(s0: State, s: State, t: State, b: R.Buckets, r: Result, available: nat)
    requires r.Done? && Surveyed(s0, s) && StagedBucket(s, b.staged) && StagedDone(s, t, b.staged, r, available)
    requires available == (if r.limit > |Occupied(s)| then r.limit - |Occupied(s)| else 0)
    ensures Allocated(s0, t, r)
  {
    CandidatesAtEnd(s, t, b.staged, r, available);
    BeforeThePass(s0, s, b.staged, r);
    DeferredAtEnd(s, t, b.staged, r, available);
    Assembled(s0, s, t, r, available);
  }

  lemma Assembled(s0: State, s: State, t: State, r: Result, available: nat)
    requires r.Done? && R.InOrder(r.candidates) && FirstServed(r.candidates, r.deferred, r.served, available)
    requires |Occupied(t)| == |Occupied(s)| + |r.served| && Occupied(s) <= Occupied(s0)
    requires available == (if r.limit > |Occupied(s)| then r.limit - |Occupied(s)| else 0)
    requires forall n :: n in r.candidates <==> CandidateBefore(t, r.served, n)
    requires forall n | n in r.served :: n in Occupied(t)
    requires forall n | n in Occupied(t) :: n in Occupied(s) || n in r.served
    requires forall n | n in r.candidates && n in r.deferred :: SeenDeferred(t, n)
    requires forall n | n in r.candidates ::
               n in s0.members && s0.members[n].local.own.Some? && !HasSlot(s0.members[n].local.own.value)
    ensures Allocated(s0, t, r)
  {
  }

  lemma SurveyedCopy(s0: State, s: State, staged: seq<Name>, n: Name)
    requires Surveyed(s0, s) && StagedBucket(s, staged) && n in s.members && s.members[n].local.own.Some?
    ensures n in s0.members && s0.members[n].local.own.Some?
    ensures HasSlot(s.members[n].local.own.value) ==> HasSlot(s0.members[n].local.own.value)
    ensures n in staged && !HasSlot(s.members[n].local.own.value) ==> !HasSlot(s0.members[n].local.own.value)
  {
    if n in s0.members { assert SurveyedNode(s0.members[n], s.members[n]); }
  }

  lemma SettledAtEnd(s0: State, s: State, t: State, b: R.Buckets, r: Result, available: nat)
    requires r.Done? && Surveyed(s0, s) && StagedBucket(s, b.staged) && StagedDone(s, t, b.staged, r, available)
    requires available == (if r.limit > |Occupied(s)| then r.limit - |Occupied(s)| else 0)
    ensures Settled(t, r.limit)
  {
    forall n | n in t.members
      ensures SettledNode(t.members[n], |Occupied(t)| >= r.limit)
    {
      if n in b.staged {
        StagedSettled(s, t, b.staged, r, available, n);
      } else if n in s.members {
        assert MemberKept(s.members[n], t.members[n]);
        OtherSettled(s0, s, b.staged, n);
      }
    }
  }

  lemma StagedSettled(s: State, t: State, staged: seq<Name>, r: Result, available: nat, n: Name)
    requires r.Done? && StagedBucket(s, staged) && StagedDone(s, t, staged, r, available) && n in staged
    requires available == (if r.limit > |Occupied(s)| then r.limit - |Occupied(s)| else 0)
    ensures SettledNode(t.members[n], |Occupied(t)| >= r.limit)
  {
    assert DoneNode(s.members[n], t.members[n], n in r.served, n in r.deferred);
    if n in r.candidates && n !in r.deferred && n !in r.served {
      LeftOverMeansFull(r.candidates, r.deferred, r.served, available, n);
    }
  }

  lemma OtherSettled(s0: State, s: State, staged: seq<Name>, n: Name)
    requires Surveyed(s0, s) && StagedBucket(s, staged) && n in s.members && n !in staged
    ensures SettledNode(s.members[n], false)
  {
    if n in s0.members { assert SurveyedNode(s0.members[n], s.members[n]); }
  }

  predicate SameOwned(s: State, t: State) {
    s.members.Keys <= t.members.Keys && OwnMap(t).Keys == OwnMap(s).Keys && |OwnMap(t)| == |OwnMap(s)|
  }

  lemma SurveyedOwned(s: State, t: State)
    requires Surveyed(s, t)
    ensures SameOwned(s, t)
  {
    forall n
      ensures n in OwnMap(t) <==> n in OwnMap(s)
    {
      if n in s.members { assert SurveyedNode(s.members[n], t.members[n]); }
    }
    assert OwnMap(t).Keys == OwnMap(s).Keys;
    assert |OwnMap(t).Keys| == |OwnMap(t)| && |OwnMap(s).Keys| == |OwnMap(s)|;
  }

  // ---- What a pass reports about its nodes --------------------------------------------------

  /** The buckets count the nodes by what is the case with them, and the wake-up is the next reboot that
      could time out. */
  ghost predicate Viewed(v: View, timeout: int, now: int) {
    && P.Tallied(v.buckets, v.owned, timeout, now)
    && Q.LeastPositive(v.wake, Q.Deadlines(v.owned, timeout, now))
  }

  /** The same nodes with the same images and statuses. */
  predicate SameReports(a: R.Owned, b: R.Owned) {
    b.Keys == a.Keys && forall n | n in a :: b[n].desired == a[n].desired && b[n].status == a[n].status
  }

  /** What the pass holds at its end is what the view shows. */
  ghost predicate Shows(v: View, s: State, timeout: int, now: int) {
    Viewed(v, timeout, now) && SameReports(v.owned, OwnMap(s))
  }

  /** A pass that did not fail shows its nodes, and halted exactly if two of them or more are bad slots. */
  ghost predicate Reported(r: Result, s: State, timeout: int, now: int) {
    && s.pass.Busy? && s.pass.image.Digested? && !r.Failed? && Shows(r.view, s, timeout, now)
    && (r.Halted? <==> |R.BadSlots(r.view.owned, s.pass.image.digest, timeout, now)| >= 2)
  }

  lemma TimedIsViewed(owned: R.Owned, b: R.Buckets, timeout: int, now: int, w: int)
    requires R.Classified(b, owned, owned.Keys) && forall n | n in b.rebooting :: n in owned
    requires Q.LeastPositive(w, Q.Deadlines(owned, timeout, now))
    ensures Viewed(View(owned, P.Timed(b, owned, timeout, now), w), timeout, now)
  {
    P.TimeoutsConserveNodes(b, owned, timeout, now);
  }

  lemma ViewedAgain(v: View, owned: R.Owned, timeout: int, now: int)
    requires Viewed(v, timeout, now) && SameReports(v.owned, owned)
    ensures Viewed(v.(owned := owned), timeout, now)
  {
    assert P.Tallied(v.buckets, owned, timeout, now) by { TalliedAgain(v.buckets, v.owned, owned, timeout, now); }
    assert Q.LeastPositive(v.wake, Q.Deadlines(owned, timeout, now)) by {
      Q.DeadlinesKept(v.owned, owned, timeout, now);
    }
  }

  lemma TalliedAgain(b: R.Buckets, a: R.Owned, owned: R.Owned, timeout: int, now: int)
    requires P.Tallied(b, a, timeout, now) && SameReports(a, owned)
    ensures P.Tallied(b, owned, timeout, now)
  {
    forall n | n in a
      ensures P.Ailing(owned[n], timeout, now) == P.Ailing(a[n], timeout, now)
      ensures ClassifyNode(owned[n]) == ClassifyNode(a[n])
    {
    }
    assert P.Updated(owned) == P.Updated(a);
    assert P.AilingNames(owned, timeout, now) == P.AilingNames(a, timeout, now);
    assert P.OnTheWayNames(owned, timeout, now) == P.OnTheWayNames(a, timeout, now);
    assert |owned.Keys| == |owned| && |a.Keys| == |a|;
  }

  lemma ViewedFreed(s: State, t: State, names: seq<Name>, v: View, timeout: int, now: int)
    requires v.owned == OwnMap(s) && Viewed(v, timeout, now) && Kept(s, t, Names(names))
    requires forall n | n in names :: n in s.members && n in t.members && CheckedNode(s.members[n], t.members[n])
    ensures Viewed(v.(owned := OwnMap(t)), timeout, now)
  {
    CopiesKept(s, t, names);
    ViewedAgain(v, OwnMap(t), timeout, now);
  }

  lemma ReportsAtEnd(s: State, t: State, staged: seq<Name>, r: Result, available: nat)
    requires r.Done? && StagedDone(s, t, staged, r, available)
    ensures SameReports(OwnMap(s), OwnMap(t))
  {
    forall n | n in staged
      ensures n in s.members && n in t.members && ImageAndStatusKept(s.members[n], t.members[n])
    {
      assert DoneNode(s.members[n], t.members[n], n in r.served, n in r.deferred);
    }
    StatusesKept(s, t, staged);
  }

  predicate ImageAndStatusKept(m: Member, m': Member) {
    && m.local.own.Some? && m'.local.own.Some?
    && m'.local.own.value.desired == m.local.own.value.desired && m'.local.own.value.status == m.local.own.value.status
  }

  lemma StatusesKept(s: State, t: State, staged: seq<Name>)
    requires Kept(s, t, Names(staged))
    requires forall n | n in staged :: n in s.members && n in t.members && ImageAndStatusKept(s.members[n], t.members[n])
    ensures SameReports(OwnMap(s), OwnMap(t))
  {
    forall n
      ensures n in OwnMap(t) <==> n in OwnMap(s)
      ensures n in OwnMap(s) ==>
                n in OwnMap(t) && OwnMap(t)[n].desired == OwnMap(s)[n].desired && OwnMap(t)[n].status == OwnMap(s)[n].status
    {
      if n in s.members && n !in staged { assert MemberKept(s.members[n], t.members[n]); }
    }
  }

  lemma SameCopies(s: State, t: State, staged: seq<Name>)
    requires Kept(s, t, Names(staged))
    requires forall n | n in staged :: n in s.members && n in t.members
                                       && s.members[n].local.own.Some? && t.members[n].local.own.Some?
    ensures SameOwned(s, t)
  {
    forall n
      ensures n in OwnMap(t) <==> n in OwnMap(s)
    {
      if n in s.members && n !in staged { assert MemberKept(s.members[n], t.members[n]); }
    }
    assert OwnMap(t).Keys == OwnMap(s).Keys;
    assert |OwnMap(t).Keys| == |OwnMap(t)| && |OwnMap(s).Keys| == |OwnMap(s)|;
  }

  /** The slots gone bad, as the pass sees them. */
  function Bad(s: State, timeout: int, now: int): set<Name>
    requires s.pass.Busy? && s.pass.image.Digested?
  {
    R.BadSlots(OwnMap(s), s.pass.image.digest, timeout, now)
  }

  predicate IsStaged(m: Member) {
    m.local.own.Some? && ClassifyNode(m.local.own.value) == Some(Staged)
  }

  lemma BadAtEnd(s: State, t: State, staged: seq<Name>, r: Result, available: nat, timeout: int, now: int)
    requires r.Done? && StagedBucket(s, staged) && StagedDone(s, t, staged, r, available)
    requires s.pass.Busy? && s.pass.image.Digested?
    ensures Bad(t, timeout, now) == Bad(s, timeout, now)
  {
    forall n | n in staged
      ensures n in s.members && n in t.members && IsStaged(s.members[n]) && IsStaged(t.members[n])
    {
      assert DoneNode(s.members[n], t.members[n], n in r.served, n in r.deferred);
    }
    StagedIsNotBad(s, t, staged, timeout, now);
  }

  /** Serving candidates makes no slot bad. */
  lemma StagedIsNotBad(s: State, t: State, staged: seq<Name>, timeout: int, now: int)
    requires Kept(s, t, Names(staged)) && s.pass.Busy? && s.pass.image.Digested?
    requires forall n | n in staged ::
               n in s.members && n in t.members && IsStaged(s.members[n]) && IsStaged(t.members[n])
    ensures Bad(t, timeout, now) == Bad(s, timeout, now)
  {
    forall n
      ensures n in Bad(t, timeout, now) <==> n in Bad(s, timeout, now)
    {
      if n in s.members && n !in staged { assert MemberKept(s.members[n], t.members[n]); }
    }
  }

  lemma EndOfPass(s0: State, s: State, t: State, b: R.Buckets, r: Result, available: nat, timeout: int, now: int)
    requires r.Done? && Surveyed(s0, s) && StagedBucket(s, b.staged) && StagedDone(s, t, b.staged, r, available)
    requires available == (if r.limit > |Occupied(s)| then r.limit - |Occupied(s)| else 0)
    requires s.pass.Busy? && s.pass.image.Digested?
    ensures Allocated(s0, t, r) && Settled(t, r.limit) && SameOwned(s, t)
    ensures Bad(t, timeout, now) == Bad(s, timeout, now) && SameReports(OwnMap(s), OwnMap(t))
  {
    ReportsAtEnd(s, t, b.staged, r, available);
    BadAtEnd(s, t, b.staged, r, available, timeout, now);
    AllocatedAtEnd(s0, s, t, b, r, available);
    SettledAtEnd(s0, s, t, b, r, available);
    SameCopies(s, t, b.staged);
  }

  // ---- A whole reconcile --------------------------------------------------------------------

  datatype Outcome = Nothing | Deleted | Rolled(result: Result, rivals: set<Pool>)

  predicate Selects(p: Pool, m: Member) {
    m.node.Some? && p in m.node.value.selectedBy
  }

  /** What the reconcile of a pool without a finalizer comes to: nothing but the finalizer, or a call that
      was not accepted. */
  predicate FinalizerCame(s: State, t: State, p: Pool, o: Outcome, faults: int) {
    && o == Nothing && Kept(s, t, {}) && p in t.pools && (faults > 0 || t.pools[p].Live?)
    && (t.pools[p].NoFinalizer? || t.pools[p].Live? || t.pools[p].Removed?)
  }

  /** Between milestones a pool without a finalizer can only be deleted. */
  lemma {:induction false} PoolsSince(origin: State, acts: seq<Action>, trail: seq<State>, k: nat, j: nat,
                                      places: set<nat>, p: Pool)
    requires IsRun(origin, acts, trail) && k <= j <= |acts| && Located(acts, places) && forall i | i in places :: i < k
    requires p in trail[k].pools && trail[k].pools[p].NoFinalizer?
    ensures p in trail[j].pools && (trail[j].pools[p].NoFinalizer? || trail[j].pools[p].Removed?)
    ensures trail[j].pools[p].Removed? ==> exists i: nat | k <= i < j :: Environmental(acts[i])
    decreases j
  {
    if k < j {
      PoolsSince(origin, acts, trail, k, j - 1, places, p);
      assert StepAt(acts, trail, j - 1);
      assert !Milestone(acts[j - 1]);
    }
  }

  /** The pools whose BootcNodes sit on nodes that `p` selects. */
  function RivalsOf(s: State, p: Pool): set<Pool> {
    set n | n in s.members && Selects(p, s.members[n]) && s.members[n].bn.Some?
            && s.members[n].bn.value.owner.Some? && s.members[n].bn.value.owner.value != p
         :: s.members[n].bn.value.owner.value
  }

  /** The members of `p` are exactly the nodes it selected that no other BootcNode stood on, and all
      of them desire its image. */
  predicate MembersAre(s: State, t: State, p: Pool, image: Ref) {
    && s.members.Keys <= t.members.Keys
    && (forall n | n in s.members ::
          OwnedBy(t.members[n], p) <==>
          Selects(p, s.members[n]) && (s.members[n].bn.None? || OwnedBy(s.members[n], p)))
    && (forall n | n in t.members && OwnedBy(t.members[n], p) ::
          n in s.members && t.members[n].bn.value.desired == image)
  }

  /** What a reconcile of `p` reports is about exactly the members it leaves, all with its image; and it
      halted exactly if two of them or more are bad slots. */
  ghost predicate ReportsMembers(r: Result, s: State, p: Pool, image: Ref, timeout: int, now: int) {
    && !r.Failed? && image.Digested? && Viewed(r.view, timeout, now)
    && (forall n :: n in r.view.owned <==> n in s.members && OwnedBy(s.members[n], p))
    && (forall n | n in r.view.owned :: r.view.owned[n].desired == image)
    && (r.Halted? <==> |R.BadSlots(r.view.owned, image.digest, timeout, now)| >= 2)
  }

  /** The statuses reported are those that are stored. */
  predicate StatusesStored(v: View, s: State) {
    forall n | n in v.owned && n in s.members && s.members[n].bn.Some? ::
      v.owned[n].status == s.members[n].bn.value.status
  }

  /** A reconcile adds no slot but those it hands out, and if it hands out any, the pool is within
      its limit afterwards. */
  ghost predicate SlotsWithin(before: set<Name>, after: set<Name>, r: Result) {
    if r.Done? then
      && (forall n | n in after :: n in before || n in r.served)
      && (r.served != [] ==> |after| <= r.limit)
    else after <= before
  }

  /** Which nodes a pass holds copies of at its end, by what it had listed. */
  predicate Adopted(s: State, t: State) {
    && s.members.Keys <= t.members.Keys
    && (forall n | n in s.members ::
          n in OwnMap(t) <==> s.members[n].local.listed && (s.members[n].local.own.Some? || s.members[n].bn.None?))
    && (forall n | n in OwnMap(t) :: n in s.members)
  }

  lemma AdoptedAtEnd(s: State, t: State, u: State)
    requires s.pass.Busy? && s.members.Keys <= t.members.Keys && SameOwned(t, u)
    requires forall n | n in s.members :: JoinedNode(s.pass, s.members[n], t.members[n])
    requires forall n | n in t.members && n !in s.members :: Blank(t.members[n])
    ensures Adopted(s, u)
  {
    forall n | n in s.members
      ensures n in OwnMap(t) <==> s.members[n].local.listed && (s.members[n].local.own.Some? || s.members[n].bn.None?)
    {
      assert JoinedNode(s.pass, s.members[n], t.members[n]);
    }
  }

  lemma JoinedAddsNoSlot(s: State, t: State)
    requires s.pass.Busy? && s.members.Keys <= t.members.Keys
    requires forall n | n in s.members :: JoinedNode(s.pass, s.members[n], t.members[n])
    requires forall n | n in t.members && n !in s.members :: Blank(t.members[n])
    ensures Occupied(t) <= Occupied(s)
  {
    forall n | n in Occupied(t)
      ensures n in Occupied(s)
    {
      if n in s.members { assert JoinedNode(s.pass, s.members[n], t.members[n]); }
    }
  }

  lemma SurveyAddsNoSlot(s: State, t: State)
    requires Surveyed(s, t)
    ensures Occupied(t) <= Occupied(s)
  {
    forall n | n in Occupied(t)
      ensures n in Occupied(s)
    {
      if n in s.members { assert SurveyedNode(s.members[n], t.members[n]); }
    }
  }

  lemma OccupiedAtEnd(s: State, t: State, u: State, r: Result)
    requires s.pass.Busy? && s.members.Keys <= t.members.Keys && !r.Failed?
    requires forall n | n in s.members :: JoinedNode(s.pass, s.members[n], t.members[n])
    requires forall n | n in t.members && n !in s.members :: Blank(t.members[n])
    requires !r.Done? ==> Surveyed(t, u)
    requires r.Done? ==> Allocated(t, u, r)
    ensures SlotsWithin(Occupied(s), Occupied(u), r)
  {
    JoinedAddsNoSlot(s, t);
    if !r.Done? { SurveyAddsNoSlot(t, u); }
  }

  /** What membership and rollout together leave. */
  lemma AfterRollout(s: State, t: State, u: State, r: Result)
    requires s.pass.Busy? && s.members.Keys <= t.members.Keys && !r.Failed? && SameOwned(t, u)
    requires forall n | n in s.members :: JoinedNode(s.pass, s.members[n], t.members[n])
    requires forall n | n in t.members && n !in s.members :: Blank(t.members[n])
    requires !r.Done? ==> Surveyed(t, u)
    requires r.Done? ==> Allocated(t, u, r)
    ensures Adopted(s, u) && SlotsWithin(Occupied(s), Occupied(u), r) && (r.Halted? ==> NothingToFree(u))
  {
    AdoptedAtEnd(s, t, u);
    OccupiedAtEnd(s, t, u, r);
    if r.Halted? { SurveyFrees(t, u); }
  }

  lemma NoCopyLeft(s: State, t: State)
    requires Kept(s, t, OwnMap(s).Keys)
    requires forall n | n in OwnMap(s) :: n in t.members && Unmanaged(t.members[n])
    ensures forall n | n in t.members :: t.members[n].local.own.None?
  {
    forall n | n in t.members
      ensures t.members[n].local.own.None?
    {
      if n in s.members && n !in OwnMap(s) { assert MemberKept(s.members[n], t.members[n]); }
    }
  }

  lemma NoCopyYet(s: State, t: State)
    requires Kept(s, t, {}) && forall n | n in s.members :: s.members[n].local.own.None?
    ensures forall n | n in t.members :: t.members[n].local.own.None?
  {
    forall n | n in t.members
      ensures t.members[n].local.own.None?
    {
      if n in s.members { assert MemberKept(s.members[n], t.members[n]); }
    }
  }

  lemma NoneOwned(origin: State, acts: seq<Action>, trail: seq<State>)
    requires Inv(origin) && IsRun(origin, acts, trail)
    requires Enabled(trail[|acts|], DropFinalizer)
    ensures var t := trail[|acts|]; forall n | n in t.members :: !OwnedBy(t.members[n], t.pass.pool)
  {
    RunIsLegal(origin, acts, trail);
    FinalizerDroppedLast(trail[|acts|]);
  }

  lemma BeginListsAll(s: State, p: Pool, image: Ref)
    requires Enabled(s, Begin(p, image))
    ensures var t := Apply(s, Begin(p, image));
            && FreshLists(t) && AllUntouched(t)
            && Slots(s, p) == Occupied(t)
            && t.members.Keys == s.members.Keys
            && forall n | n in s.members :: t.members[n] == s.members[n].(local := Listed(p, s.pools[p].Terminating?, s.members[n]))
  {
    var t := Apply(s, Begin(p, image));
    forall n
      ensures n in Slots(s, p) <==> n in Occupied(t)
    {
    }
  }

  lemma EndForgetsOnly(s: State, p: Pool)
    requires Inv(s) && s.pass.Busy? && s.pass.pool == p
    ensures Slots(Apply(s, End), p) == Occupied(s)
    ensures forall n | n in s.members :: OwnedBy(s.members[n], p) <==> n in OwnMap(s)
  {
    OccupiedIsSlots(s);
    forall n
      ensures n in Slots(Apply(s, End), p) <==> n in Slots(s, p)
    {
    }
    forall n | n in s.members
      ensures OwnedBy(s.members[n], p) <==> n in OwnMap(s)
    {
      assert Good(s.pass, s.members[n]);
    }
  }

  lemma RivalsListed(s: State, p: Pool, image: Ref)
    requires Enabled(s, Begin(p, image)) && s.pools[p].Live?
    ensures var t := Apply(s, Begin(p, image)); Rivals(t, t.members.Keys) == RivalsOf(s, p)
  {
    var t := Apply(s, Begin(p, image));
    forall q
      ensures q in Rivals(t, t.members.Keys) <==> q in RivalsOf(s, p)
    {
      if q in Rivals(t, t.members.Keys) {
        var n :| n in t.members && Rival(t.members[n]) == Some(q);
        assert n in s.members && Selects(p, s.members[n]);
      }
      if q in RivalsOf(s, p) {
        var n :| n in s.members && Selects(p, s.members[n]) && s.members[n].bn.Some? && s.members[n].bn.value.owner == Some(q);
        assert Rival(t.members[n]) == Some(q);
      }
    }
  }

  lemma ReconciledAtEnd(origin: State, acts: seq<Action>, trail: seq<State>, s0: State, p: Pool, image: Ref, r: Result)
    requires Inv(origin) && IsRun(origin, acts, trail)
    requires Enabled(s0, Begin(p, image)) && s0.pools[p].Live?
    requires var s1, t := Apply(s0, Begin(p, image)), trail[|acts|];
             && SamePass(t.pass, s1.pass.(stage := Rolling)) && Adopted(s1, t)
             && SlotsWithin(Occupied(s1), Occupied(t), r)
    ensures var u := Apply(trail[|acts|], End);
            MembersAre(s0, u, p, image) && SlotsWithin(Slots(s0, p), Slots(u, p), r)
    ensures var s1 := Apply(s0, Begin(p, image)); Rivals(s1, s1.members.Keys) == RivalsOf(s0, p)
  {
    var s1, t := Apply(s0, Begin(p, image)), trail[|acts|];
    RunIsLegal(origin, acts, trail);
    RunAgreesWithPass(origin, acts, trail);
    BeginListsAll(s0, p, image);
    EndForgetsOnly(t, p);
    RivalsListed(s0, p, image);
    MembersAtEnd(s0, s1, t, p, image);
  }

  lemma MembersAtEnd(s0: State, s1: State, t: State, p: Pool, image: Ref)
    requires Adopted(s1, t) && t.pass.Busy? && AllGood(t)
    requires s1.members.Keys == s0.members.Keys
    requires forall n | n in s0.members :: s1.members[n] == s0.members[n].(local := Listed(p, false, s0.members[n]))
    requires forall n | n in t.members :: OwnedBy(t.members[n], p) <==> n in OwnMap(t)
    requires forall n | n in OwnMap(t) :: OwnMap(t)[n].desired == image
    ensures MembersAre(s0, Apply(t, End), p, image)
  {
    forall n | n in t.members && OwnedBy(t.members[n], p)
      ensures n in s0.members && t.members[n].bn.value.desired == image
    {
      assert Good(t.pass, t.members[n]);
    }
  }

  // ---- The milestones of a run ------------------------------------------------------------------

  /** A step of a pass that is not work on a node. */
  predicate Milestone(a: Action) {
    !a.On? && !Environmental(a)
  }

  ghost predicate Located(acts: seq<Action>, places: set<nat>) {
    && (forall i | i in places :: i < |acts|)
    && (forall i: nat | i < |acts| && Milestone(acts[i]) :: i in places)
  }

  /** The milestones added since `before` are all of a kind. */
  ghost predicate Since(acts: seq<Action>, before: set<nat>, after: set<nat>, kind: Action -> bool) {
    before <= after && forall i | i in after && i !in before :: i < |acts| && kind(acts[i])
  }

  function Only(a: Action): Action -> bool {
    (x: Action) => x == a
  }

  function Ends(): Action -> bool {
    (x: Action) => x == End || x == Restart
  }

  function Draws(limit: Option<int>): Action -> bool {
    (x: Action) => x.Allot? && limit == Some(x.limit)
  }

  function RollsWith(limit: Option<int>): Action -> bool {
    (x: Action) => x == Roll || (x.Allot? && limit == Some(x.limit))
  }

  /** What a reconcile of `p` may do besides work on nodes: one pass for `image`, which draws its budget,
      if any, from `limit`. */
  function OfReconcile(p: Pool, image: Ref, limit: Option<int>): Action -> bool {
    (x: Action) =>
      || x == Begin(p, image) || x == Roll || x == End || x == Restart || x == DropFinalizer || x == AddFinalizer(p)
      || (x.Allot? && limit == Some(x.limit))
  }

  lemma SinceMore(acts1: seq<Action>, acts: seq<Action>, before: set<nat>, places1: set<nat>, places: set<nat>,
                  first: Action -> bool, second: Action -> bool, limit: Option<int>)
    requires acts1 <= acts && Since(acts1, before, places1, first) && Since(acts, places1, places, second)
    requires forall a :: first(a) || second(a) ==> RollsWith(limit)(a)
    ensures Since(acts, before, places, RollsWith(limit))
  {
    forall i | i in places && i !in before
      ensures i < |acts| && RollsWith(limit)(acts[i])
    {
      if i in places1 { assert first(acts1[i]) && acts[i] == acts1[i]; } else { assert second(acts[i]); }
    }
  }

  lemma MilestonesOfPass(acts0: seq<Action>, acts: seq<Action>, places0: set<nat>, places1: set<nat>, places: set<nat>,
                         p: Pool, image: Ref, limit: Option<int>)
    requires |acts0| < |acts| && acts[|acts0|] == Begin(p, image) && places1 == places0 + {|acts0|}
    requires Since(acts, places1, places, RollsWith(limit))
    ensures Since(acts, places0, places, OfReconcile(p, image, limit))
  {
    forall i | i in places && i !in places0
      ensures i < |acts| && OfReconcile(p, image, limit)(acts[i])
    {
      if i != |acts0| { assert RollsWith(limit)(acts[i]); }
    }
  }

  /** The pass is ended on top. */
  lemma SinceBoth(acts1: seq<Action>, acts: seq<Action>, before: set<nat>, places1: set<nat>, places: set<nat>,
                  kind: Action -> bool)
    requires acts1 <= acts && Since(acts1, before, places1, kind) && Since(acts, places1, places, Ends()) && kind(End) && kind(Restart)
    ensures Since(acts, before, places, kind)
  {
    forall i | i in places && i !in before
      ensures i < |acts| && kind(acts[i])
    {
      if i in places1 { assert kind(acts1[i]) && acts[i] == acts1[i]; } else { assert Ends()(acts[i]); }
    }
  }

  lemma MilestonesOfDeletion(acts0: seq<Action>, acts2: seq<Action>, acts: seq<Action>,
                             places0: set<nat>, places1: set<nat>, places2: set<nat>, places: set<nat>,
                             p: Pool, image: Ref, limit: Option<int>)
    requires |acts0| < |acts2| && acts2[|acts0|] == Begin(p, image) && acts2 <= acts && places1 == places0 + {|acts0|}
    requires Since(acts2, places1, places2, Only(DropFinalizer)) && Since(acts, places2, places, Ends())
    ensures Since(acts, places0, places, OfReconcile(p, image, limit))
  {
    forall i | i in places2 && i !in places0
      ensures i < |acts2| && OfReconcile(p, image, limit)(acts2[i])
    {
      if i != |acts0| { assert Only(DropFinalizer)(acts2[i]); }
    }
    SinceBoth(acts2, acts, places0, places2, places, OfReconcile(p, image, limit));
  }

  /** The nodes a pass owns once membership is in sync. */
  function Joining(s: State): set<Name> {
    set n | n in s.members && s.members[n].local.listed && (s.members[n].local.own.Some? || s.members[n].bn.None?)
  }

  /** The nodes `p` has after a reconcile. */
  function MembersOf(s: State, p: Pool): set<Name> {
    set n | n in s.members && Selects(p, s.members[n]) && (s.members[n].bn.None? || OwnedBy(s.members[n], p))
  }

  /** The maxUnavailable a reconcile of `p` resolves; none if the spec is invalid. */
  function LimitOf(s: State, p: Pool, paused: bool, max: R.MaxUnavailable): Option<int> {
    R.ResolveMaxUnavailable(paused, max, |MembersOf(s, p)|)
  }

  predicate Bounded(before: nat, after: nat, limit: Option<int>) {
    after <= before || (limit.Some? && after <= limit.value)
  }

  lemma JoiningOwned(s: State, t: State)
    requires s.pass.Busy? && s.members.Keys <= t.members.Keys
    requires forall n | n in s.members :: JoinedNode(s.pass, s.members[n], t.members[n])
    requires forall n | n in t.members && n !in s.members :: Blank(t.members[n])
    ensures |OwnMap(t)| == |Joining(s)|
  {
    forall n
      ensures n in OwnMap(t).Keys <==> n in Joining(s)
    {
      if n in s.members { assert JoinedNode(s.pass, s.members[n], t.members[n]); }
    }
    assert OwnMap(t).Keys == Joining(s) && |OwnMap(t).Keys| == |OwnMap(t)|;
  }

  lemma JoiningAreMembers(s: State, p: Pool, image: Ref)
    requires Enabled(s, Begin(p, image)) && s.pools[p].Live?
    ensures Joining(Apply(s, Begin(p, image))) == MembersOf(s, p)
  {
  }

  /** The states of a run follow from its steps. */
  lemma {:induction false} SameTrail(origin: State, acts0: seq<Action>, trail0: seq<State>,
                                     acts: seq<Action>, trail: seq<State>, k: nat)
    requires IsRun(origin, acts0, trail0) && IsRun(origin, acts, trail) && acts0 <= acts && k <= |acts0|
    ensures trail[k] == trail0[k]
  {
    if k > 0 {
      SameTrail(origin, acts0, trail0, acts, trail, k - 1);
      assert StepAt(acts0, trail0, k - 1) && StepAt(acts, trail, k - 1);
    }
  }

  /** The rest of a run is a run. */
  lemma Suffix(origin: State, acts: seq<Action>, trail: seq<State>, k: nat)
    requires Inv(origin) && IsRun(origin, acts, trail) && k <= |acts|
    ensures Inv(trail[k]) && IsRun(trail[k], acts[k..], trail[k..])
    ensures Legal(trail[k], acts[k..]) && Replay(trail[k], acts[k..]) == trail[|acts|]
  {
    RunPart(origin, acts, trail, k);
    RunIsLegal(origin, acts[..k], trail[..k + 1]);
    RunIsLegal(trail[k], acts[k..], trail[k..]);
  }

  /** However the passes of a stretch of a run stop: if every budget drawn in it comes from `limit`, the
      slots at its end are no more than at its start or than `limit`. */
  lemma StretchBound(origin: State, acts: seq<Action>, trail: seq<State>, k: nat, p: Pool, bound: int)
    requires Inv(origin) && IsRun(origin, acts, trail) && k <= |acts| && trail[k].pass.Idle?
    requires forall i | k <= i < |acts| && acts[i].Allot? :: acts[i].limit <= bound
    ensures |Slots(trail[|acts|], p)| <= |Slots(trail[k], p)| || |Slots(trail[|acts|], p)| <= bound
  {
    Suffix(origin, acts, trail, k);
    S.SlotBound(trail[k], acts[k..], p, bound);
  }

  lemma SegmentBound(origin: State, acts: seq<Action>, trail: seq<State>, k: nat, places: set<nat>, before: set<nat>,
                     p: Pool, image: Ref, limit: Option<int>)
    requires Inv(origin) && IsRun(origin, acts, trail) && k <= |acts| && trail[k].pass.Idle?
    requires Located(acts, places) && (forall i | i in before :: i < k)
    requires Since(acts, before, places, OfReconcile(p, image, limit))
    ensures Bounded(|Slots(trail[k], p)|, |Slots(trail[|acts|], p)|, limit)
  {
    var bound := if limit.Some? then limit.value else -1;
    forall i | k <= i < |acts| && acts[i].Allot?
      ensures acts[i].limit <= bound
    {
      assert Milestone(acts[i]);
    }
    StretchBound(origin, acts, trail, k, p, bound);
  }

  lemma AtTrail(origin: State, acts: seq<Action>, trail: seq<State>, k: nat)
    requires Inv(origin) && IsRun(origin, acts, trail) && k <= |acts|
    ensures Legal(origin, acts) && S.At(origin, acts, k) == trail[k]
  {
    RunPart(origin, acts, trail, k);
    RunIsLegal(origin, acts, trail);
    RunIsLegal(origin, acts[..k], trail[..k + 1]);
  }

  // ---- Undisturbed passes see what is stored ----------------------------------------------------

  /** What the pass holds of a node is exactly what is stored. */
  predicate Exact(m: Member) {
    && (m.local.own.Some? ==> m.bn == m.local.own)
    && (m.local.node.Some? ==> m.node == m.local.node)
  }

  /** Karpenter does not hold the node back, neither now nor as the pass has read it. */
  predicate Calm(m: Member) {
    && (m.node.Some? ==> !DisruptionActive(m.node.value, m.claim))
    && (m.local.node.Some? ==> !Deferred(m.local))
  }

  /** What the steps of a pass alone can make of a node. */
  predicate Calmly(m: Member, m': Member) {
    && (Exact(m) ==> Exact(m'))
    && (Exact(m) && Calm(m) ==> Calm(m'))
    && (m'.node.Some? <==> m.node.Some?)
    && (m.node.Some? ==> m'.node.value.selectedBy == m.node.value.selectedBy)
    && (m.bn.Some? && m.local.own.None? ==> m'.bn.Some? && m'.local.own.None?)
    && (m'.drain.Some? && m'.drain.value.Finished? ==> m'.drain == m.drain)
  }

  /** A step of the pass itself. */
  predicate OfThePass(a: Action) {
    a.Roll? || a.Allot? || (a.On? && !EnvOp(a.op))
  }

  lemma NodeOpIsCalm(pass: Pass, m: Member, op: Op)
    requires CodeGuard(pass, m.local, m.drain, op) && ApiGuard(pass, m, op)
    requires (m.local.own.Some? ==> m.bn.Some?) && op in {LabelOn, LabelOff, RestoreNode, DropTaint, FenceNode}
    ensures Calmly(m, Effect(pass, m, op))
  {
    OthersRemain(m.local.node.value.taints);
  }

  lemma OtherOpIsCalm(pass: Pass, m: Member, op: Op)
    requires CodeGuard(pass, m.local, m.drain, op) && ApiGuard(pass, m, op)
    requires (m.local.own.Some? ==> m.bn.Some?) && op !in {LabelOn, LabelOff, RestoreNode, DropTaint, FenceNode}
    ensures Calmly(m, Effect(pass, m, op))
  {
  }

  lemma OpIsCalm(pass: Pass, m: Member, op: Op)
    requires CodeGuard(pass, m.local, m.drain, op) && ApiGuard(pass, m, op)
    requires m.local.own.Some? ==> m.bn.Some?
    ensures Calmly(m, Effect(pass, m, op))
  {
    if op in {LabelOn, LabelOff, RestoreNode, DropTaint, FenceNode} {
      NodeOpIsCalm(pass, m, op);
    } else {
      OtherOpIsCalm(pass, m, op);
    }
  }

  lemma StepIsCalm(s: State, a: Action, n: Name)
    requires Enabled(s, a) && OfThePass(a) && n in s.members
    ensures Apply(s, a).members.Keys == s.members.Keys && Calmly(s.members[n], Apply(s, a).members[n])
  {
    if a.On? && a.name == n { OpIsCalm(s.pass, s.members[n], a.op); }
  }

  /** If nothing but the pass itself acts from one point to another, then copies that were exact stay
      exact, a node that was not held back is not, and a drain that has finished had finished before. */
  lemma {:induction false} UndisturbedPassIsExact(origin: State, acts: seq<Action>, trail: seq<State>, k: nat, j: nat, n: Name)
    requires IsRun(origin, acts, trail) && k <= j <= |acts| && n in trail[k].members
    requires forall i | k <= i < j :: OfThePass(acts[i])
    ensures trail[j].members.Keys == trail[k].members.Keys && Calmly(trail[k].members[n], trail[j].members[n])
    decreases j
  {
    if k < j {
      UndisturbedPassIsExact(origin, acts, trail, k, j - 1, n);
      assert StepAt(acts, trail, j - 1);
      StepIsCalm(trail[j - 1], acts[j - 1], n);
    }
  }

  /** Only the pass has acted from `k` on. */
  ghost predicate Undisturbed(acts: seq<Action>, k: nat) {
    forall i: nat | k <= i < |acts| :: !Environmental(acts[i])
  }

  predicate NoDrainFinished(s: State) {
    forall n | n in s.members && s.members[n].drain.Some? :: s.members[n].drain.value.Running?
  }

  lemma PassStepsSince(acts: seq<Action>, k: nat, before: set<nat>, places: set<nat>, limit: Option<int>)
    requires Located(acts, places) && (forall i | i in before :: i < k)
    requires Since(acts, before, places, RollsWith(limit)) && Undisturbed(acts, k)
    ensures forall i: nat | k <= i < |acts| :: OfThePass(acts[i])
  {
    forall i: nat | k <= i < |acts|
      ensures OfThePass(acts[i])
    {
      assert !Environmental(acts[i]);
      if Milestone(acts[i]) { assert RollsWith(limit)(acts[i]); }
    }
  }

  /** A surveyed pass has collected every drain that had finished. */
  lemma SurveyedDrains(origin: State, acts: seq<Action>, trail: seq<State>, k: nat, mid: nat)
    requires IsRun(origin, acts, trail) && k <= mid <= |acts| && Surveyed(trail[k], trail[mid])
    requires forall i | k <= i < mid :: OfThePass(acts[i])
    ensures NoDrainFinished(trail[mid])
  {
    var s, t := trail[k], trail[mid];
    forall n | n in t.members && t.members[n].drain.Some?
      ensures t.members[n].drain.value.Running?
    {
      if n in s.members {
        UndisturbedPassIsExact(origin, acts, trail, k, mid, n);
        assert SurveyedNode(s.members[n], t.members[n]);
      }
    }
  }

  lemma DrainsStayUnfinished(origin: State, acts: seq<Action>, trail: seq<State>, k: nat)
    requires IsRun(origin, acts, trail) && k <= |acts| && NoDrainFinished(trail[k])
    requires forall i | k <= i < |acts| :: OfThePass(acts[i])
    ensures NoDrainFinished(trail[|acts|])
  {
    var s, t := trail[k], trail[|acts|];
    SameKeys(origin, acts, trail, k, |acts|);
    forall n | n in t.members && t.members[n].drain.Some?
      ensures t.members[n].drain.value.Running?
    {
      UndisturbedPassIsExact(origin, acts, trail, k, |acts|, n);
    }
  }

  lemma {:induction false} SameKeys(origin: State, acts: seq<Action>, trail: seq<State>, k: nat, j: nat)
    requires IsRun(origin, acts, trail) && k <= j <= |acts| && forall i | k <= i < j :: OfThePass(acts[i])
    ensures trail[j].members.Keys == trail[k].members.Keys
    decreases j
  {
    if k < j {
      SameKeys(origin, acts, trail, k, j - 1);
      assert StepAt(acts, trail, j - 1);
    }
  }

  lemma UndisturbedParts(acts0: seq<Action>, acts1: seq<Action>, acts: seq<Action>)
    requires acts0 <= acts1 <= acts && Undisturbed(acts, |acts0|)
    ensures Undisturbed(acts1, |acts0|) && Undisturbed(acts, |acts1|)
  {
    forall i: nat | |acts0| <= i < |acts1|
      ensures !Environmental(acts1[i])
    {
      assert acts1[i] == acts[i];
    }
  }

  /** From `start` on, a pass that began after `k` rolls. */
  ghost predicate RolledAt(acts: seq<Action>, k: nat, start: nat) {
    k < start <= |acts| && acts[start - 1] == Roll
  }

  /** `mid` is where the rollout part of a pass that began at `start` had looked at everything. */
  ghost predicate SurveyedAt(s: State, start: nat, acts: seq<Action>, trail: seq<State>, mid: nat) {
    start <= mid <= |acts| && mid < |trail| && Surveyed(s, trail[mid])
  }

  /** Slots of nodes that are back and Ready have been freed. */
  predicate NothingToFree(s: State) {
    forall n | n in s.members && s.members[n].local.own.Some? ::
      var l := s.members[n].local;
      ClassifyNode(l.own.value) == Some(UpToDate) && Marked(l.own.value) ==> l.node.Some? && l.node.value.ready != True
  }

  lemma SurveyFrees(s: State, t: State)
    requires Surveyed(s, t)
    ensures NothingToFree(t)
  {
    forall n | n in t.members && t.members[n].local.own.Some?
      ensures var l := t.members[n].local;
              ClassifyNode(l.own.value) == Some(UpToDate) && Marked(l.own.value) ==>
                l.node.Some? && l.node.value.ready != True
    {
      if n in s.members { assert SurveyedNode(s.members[n], t.members[n]); }
    }
  }
}
