/** The rollout protocol as a transition system. A step is one atomic event: a single write the
    API server accepted, an in-memory change of the controller, or an event of the environment
    (daemon reconcile, host boot, drain end, Node change). Steps of the controller and of the
    environment interleave freely; a pass of the controller may stop after any of its steps. */
module Cluster {
  import opened Types
  import opened Slot
  import opened Classify
  import D = Daemon

  datatype Host = Host(booted: Option<ImageInfo>, staged: Option<ImageInfo>, rebootIssued: bool)

  datatype Drain = Running | Finished(ok: bool)

  /** How far undoing the operator's effects on a Node has come within the running pass. */
  datatype Restore = Untouched | NodeMissing | NodeDone | ClaimDone | LabelDone

  /** What the running pass remembers of one node: whether the Node was listed as matching, the
      Node and claim as last read, and its own copy of the BootcNode. */
  datatype Local = Local(listed: bool, node: Option<Node>, claim: ClaimRef, own: Option<BootcNode>, restore: Restore)

  const NO_LOCAL := Local(false, None, NoRef, None, Untouched)

  /** History variable: what everybody but the operator last put on the Node and its claim. */
  datatype Baseline = Baseline(unschedulable: bool, node: Annotations, claim: Annotations)

  /** Everything that concerns one node name. */
  datatype Member = Member(
    bn: Option<BootcNode>,
    node: Option<Node>,
    claim: ClaimRef,
    host: Host,
    drain: Option<Drain>,
    local: Local,
    found: Baseline)

  datatype Stage = Deleting | Syncing | Rolling

  /** The pass that is running, if any. Passes never overlap. `budget` counts the slots the pass
      may still hand out, and `limit` is the maxUnavailable it was derived from. */
  datatype Pass = Idle | Busy(pool: Pool, image: Ref, stage: Stage, budget: nat, limit: int)

  datatype PoolState = NoFinalizer | Live | Terminating | Removed

  datatype State = State(members: map<Name, Member>, pass: Pass, pools: map<Pool, PoolState>)

  datatype Op =
    // controller: reads
    | Read | ReadMissing
    // controller: membership
    | Create | LabelOn | Sync | CancelDrain | RestoreNode | RestoreClaim | LabelOff | Delete
    // controller: rollout
    | Collect(approve: bool) | Unmark | DropTaint | ClearTaint
    | MarkSlot | FenceClaim | FenceNode | StartDrain
    // environment
    | DrainEnds(ok: bool)
    | DaemonRuns(probe: D.Probe, saved: bool, reboots: bool)
    | Stages(entry: ImageInfo)
    | Boots(booted: Option<ImageInfo>)
    | NodeChanges(ready: Tri, taints: seq<Taint>, selectedBy: set<Pool>, deleting: bool)
    | ClaimChanges(claimDeleting: bool, rebooting: bool, disrupted: bool, terminating: bool)
    | ClaimGoes
    | NodeGoes
    | DaemonRestarts
    | AdminEdits(unschedulable: bool, annotations: Annotations, claimAnnotations: Annotations)

  datatype Action =
    | On(name: Name, op: Op)
    | Begin(pool: Pool, image: Ref)
    | Roll
    | Allot(limit: int)
    | End
    | Restart
    | DropFinalizer
    | AddFinalizer(pool: Pool)
    | DeletePool(pool: Pool)
    | Joins(name: Name, node: Node, claim: ClaimRef, host: Host)

  // ---- Guards -------------------------------------------------------------------------------

  /** The node is on its way out of the pool whose pass is running. */
  predicate Leaving(pass: Pass, l: Local) {
    pass.Busy? && l.own.Some? && (pass.stage == Deleting || (pass.stage == Syncing && !l.listed))
  }

  predicate Candidate(pass: Pass, l: Local, state: NodeState) {
    pass.Busy? && pass.stage == Rolling && l.own.Some? && ClassifyNode(l.own.value) == Some(state)
  }

  /** The pass sees the node on its desired image with the Node Ready. */
  predicate SeenHealthy(pass: Pass, l: Local) {
    Candidate(pass, l, UpToDate) && l.node.Some? && l.node.value.ready == True
  }

  predicate Freeing(pass: Pass, l: Local) {
    SeenHealthy(pass, l) && HasSlot(l.own.value)
  }

  predicate Deferred(l: Local)
    requires l.node.Some?
  {
    DisruptionActive(l.node.value, l.claim)
  }

  /** Slot and ownership of everything the fences will set are on record. */
  predicate Recorded(l: Local)
    requires l.own.Some? && l.node.Some?
  {
    && HasSlot(l.own.value)
    && SlotRecord(l.own.value.annotations, l.node.value, l.claim) == l.own.value.annotations
  }

  predicate DropsTaint(pass: Pass, l: Local)
    requires l.own.Some?
  {
    !Leaving(pass, l) && OwnsTaint in l.own.value.annotations
  }

  /** What the controller checks, on what it remembers, before a step. */
  predicate CodeGuard(pass: Pass, l: Local, drain: Option<Drain>, op: Op) {
    match op
    case Read => pass.Busy? && l.own.Some? && l.restore == Untouched
    case ReadMissing => Leaving(pass, l) && l.restore == Untouched
    case Create => pass.Busy? && pass.stage == Syncing && l.listed && l.own.None?
    case LabelOn =>
      && pass.Busy? && pass.stage == Syncing && l.listed && l.own.Some? && l.node.Some? && l.restore == Untouched
    case Sync => pass.Busy? && pass.stage == Syncing && l.listed && l.own.Some? && l.own.value.desired != pass.image
    case CancelDrain => Leaving(pass, l) && drain.Some?
    case RestoreNode =>
      && l.restore == Untouched && l.node.Some?
      && ((Leaving(pass, l) && !l.node.value.deleting) || Freeing(pass, l))
    case RestoreClaim => l.restore == NodeDone && (Leaving(pass, l) || Freeing(pass, l))
    case LabelOff => l.restore == ClaimDone && Leaving(pass, l) && l.node.Some?
    case Delete =>
      && Leaving(pass, l) && drain.None?
      && (|| l.restore == NodeMissing
          || l.restore == LabelDone
          || (l.restore == Untouched && l.node.Some? && l.node.value.deleting))
    case Collect(approve) =>
      && pass.Busy? && pass.stage == Rolling && drain.Some? && drain.value.Finished?
      && (approve ==> drain.value.ok && l.own.Some?)
    case Unmark => l.restore == ClaimDone && Freeing(pass, l)
    case DropTaint =>
      && l.restore == Untouched && SeenHealthy(pass, l) && !HasSlot(l.own.value)
      && OwnsTaint in l.own.value.annotations
    case ClearTaint =>
      && l.restore == Untouched && SeenHealthy(pass, l) && !HasSlot(l.own.value)
      && OwnsTaint in l.own.value.annotations && !HasStartupTaint(l.node.value.taints)
    case MarkSlot =>
      && l.restore == Untouched && Candidate(pass, l, Staged) && l.node.Some? && !Deferred(l)
      && (HasSlot(l.own.value) || pass.budget > 0)
    case FenceClaim =>
      && l.restore == Untouched && Candidate(pass, l, Staged) && l.node.Some? && l.claim.Found? && Recorded(l)
    case FenceNode =>
      && l.restore == Untouched && Candidate(pass, l, Staged) && l.node.Some? && Recorded(l)
    case StartDrain =>
      && Candidate(pass, l, Staged) && HasSlot(l.own.value) && !l.own.value.approved
      && drain.None? && l.node.Some? && !Deferred(l)
    case _ => false
  }

  /** What the API server checks before it accepts the write: that the object exists, and for a
      Node patch that its version is the one the controller read. */
  predicate ApiGuard(pass: Pass, m: Member, op: Op) {
    match op
    case Read => m.node.Some?
    case ReadMissing => m.node.None?
    case Create => m.bn.None?
    case LabelOn => m.node == m.local.node
    case RestoreNode =>
      m.local.own.Some? && m.local.node.Some? &&
      (NodePatchNeeded(m.local.own.value.annotations, m.local.node.value, DropsTaint(pass, m.local))
       ==> m.node == m.local.node)
    case LabelOff => m.local.node.Some? && (m.local.node.value.managed != Unlabelled ==> m.node == m.local.node)
    case DropTaint => m.node == m.local.node
    case FenceClaim => m.claim.Found?
    case FenceNode =>
      m.local.node.Some? &&
      (FencedNode(m.local.node.value, m.local.claim) != m.local.node.value ==> m.node == m.local.node)
    case _ => true
  }

  /** A record holds for a Node that changed hands, or was edited: it notes the cordon the Node now has,
      and owns no fence that others have put on it. */
  predicate Agrees(a: Annotations, node: Node, claim: ClaimRef) {
    && (InRebootSlot in a ==> Lookup(a, WasCordoned) == Some(if node.unschedulable then "true" else "false"))
    && (OwnsNodeRepair in a ==> !Honoured(node.annotations, DoNotRepair))
    && (OwnsNodeDisrupt in a ==> !Honoured(node.annotations, DoNotDisrupt))
    && (claim.Found? && OwnsClaimRepair in a ==> !Honoured(claim.claim.annotations, DoNotRepair))
    && (claim.Found? && OwnsClaimDisrupt in a ==> !Honoured(claim.claim.annotations, DoNotDisrupt))
  }

  function Record(m: Member): Annotations {
    if m.bn.Some? then m.bn.value.annotations else map[]
  }

  /** Somebody else sets cordon and annotations of a Node and its claim. */
  function Edited(m: Member, unschedulable: bool, annotations: Annotations, claimAnnotations: Annotations): Member
    requires m.node.Some?
  {
    m.(node := Some(m.node.value.(unschedulable := unschedulable, annotations := annotations)),
       claim := if m.claim.Found? then Found(m.claim.claim.(annotations := claimAnnotations)) else m.claim,
       found := Baseline(unschedulable, annotations, claimAnnotations))
  }

  /** The running pass has not read the Node. */
  predicate Unread(l: Local) {
    l.node.None? && l.restore == Untouched
  }

  /** When the environment may act. Only the operator writes the BootcNode's spec and annotations.
      Outsiders edit cordon and fences in agreement with its record, and not behind the back of a pass
      that has read the Node. */
  predicate EnvGuard(pass: Pass, m: Member, op: Op) {
    match op
    case DrainEnds(_) => m.drain == Some(Running)
    case DaemonRuns(_, _, _) => m.bn.Some? && !m.host.rebootIssued
    case Stages(_) => true
    case Boots(_) => true
    case NodeChanges(_, _, _, deleting) => m.node.Some? && (m.node.value.deleting ==> deleting)
    case ClaimChanges(_, _, _, _) => m.claim.Found?
    case ClaimGoes => m.claim.Found?
    case NodeGoes => m.node.Some?
    case DaemonRestarts => true
    case AdminEdits(unschedulable, annotations, claimAnnotations) =>
      && m.node.Some? && Unread(m.local)
      && var m' := Edited(m, unschedulable, annotations, claimAnnotations); Agrees(Record(m), m'.node.value, m'.claim)
    case _ => false
  }

  predicate Guard(pass: Pass, m: Member, op: Op) {
    (CodeGuard(pass, m.local, m.drain, op) && ApiGuard(pass, m, op)) || EnvGuard(pass, m, op)
  }

  // ---- Effects ------------------------------------------------------------------------------

  /** What the pass remembers after a step of its own; `node` and `claim` are what a read returns. */
  function Remember(pass: Pass, l: Local, node: Option<Node>, claim: ClaimRef, op: Op): Local
    requires exists drain :: CodeGuard(pass, l, drain, op)
  {
    match op
    case Read => l.(node := node, claim := claim)
    case ReadMissing => l.(restore := NodeMissing)
    case Create =>
      var tainted := l.node.Some? && HasStartupTaint(l.node.value.taints);
      l.(own := Some(BootcNode(Some(pass.pool), pass.image, false,
                               if tainted then map[OwnsTaint := "true"] else map[], NO_STATUS)))
    case LabelOn => l.(node := Some(l.node.value.(managed := ByOperator)))
    case Sync => l.(own := Some(l.own.value.(desired := pass.image, approved := false)))
    case RestoreNode =>
      l.(node := Some(RestoredNode(l.own.value.annotations, l.node.value, DropsTaint(pass, l))), restore := NodeDone)
    case RestoreClaim => l.(restore := ClaimDone)
    case LabelOff => l.(node := Some(l.node.value.(managed := Unlabelled)), restore := LabelDone)
    case Delete => l.(own := None)
    case Collect(approve) => if approve then l.(own := Some(l.own.value.(approved := true))) else l
    case Unmark => l.(own := Some(l.own.value.(annotations := ClearedRecord(l.own.value.annotations))))
    case DropTaint => l.(node := Some(l.node.value.(taints := WithoutStartupTaint(l.node.value.taints))))
    case ClearTaint => l.(own := Some(l.own.value.(annotations := l.own.value.annotations - {OwnsTaint})))
    case MarkSlot =>
      l.(own := Some(l.own.value.(annotations := SlotRecord(l.own.value.annotations, l.node.value, l.claim))))
    case FenceClaim => l.(claim := Found(FencedClaim(l.claim.claim)))
    case FenceNode => l.(node := Some(FencedNode(l.node.value, l.claim)))
    case _ => l
  }

  /** A BootcNode patch leaves the status alone, which the daemon owns. */
  function Patched(bn: Option<BootcNode>, own: Option<BootcNode>): Option<BootcNode>
    requires bn.Some? && own.Some?
  {
    Some(own.value.(status := bn.value.status))
  }

  function Effect(pass: Pass, m: Member, op: Op): Member
    requires Guard(pass, m, op)
    requires m.local.own.Some? ==> m.bn.Some?
  {
    if EnvGuard(pass, m, op) then EnvEffect(pass, m, op)
    else
      var l := Remember(pass, m.local, m.node, m.claim, op);
      match op
      case Create => m.(local := l, bn := l.own)
      case Delete => m.(local := l, bn := None)
      case Sync => m.(local := l, bn := Patched(m.bn, l.own))
      case Unmark => m.(local := l, bn := Patched(m.bn, l.own))
      case ClearTaint => m.(local := l, bn := Patched(m.bn, l.own))
      case MarkSlot => m.(local := l, bn := Patched(m.bn, l.own))
      case Collect(approve) => m.(local := l, bn := if approve then Patched(m.bn, l.own) else m.bn, drain := None)
      case CancelDrain => m.(drain := None)
      case StartDrain => m.(drain := Some(Running))
      case LabelOn => m.(local := l, node := l.node)
      case DropTaint => m.(local := l, node := l.node)
      case RestoreNode => m.(local := l, node := if m.node == m.local.node then l.node else m.node)
      case LabelOff => m.(local := l, node := if m.node == m.local.node then l.node else m.node)
      case FenceNode => m.(local := l, node := if m.node == m.local.node then l.node else m.node)
      case FenceClaim => m.(local := l, claim := Found(FencedClaim(m.claim.claim)))
      case RestoreClaim =>
        m.(local := l,
           claim := if m.claim.Found? then Found(RestoredClaim(l.own.value.annotations, m.claim.claim)) else m.claim)
      case _ => m.(local := l)
  }

  function EnvEffect(pass: Pass, m: Member, op: Op): Member
    requires EnvGuard(pass, m, op)
  {
    match op
    case DrainEnds(ok) => m.(drain := Some(Finished(ok)))
    case DaemonRuns(probe, saved, reboots) =>
      var o := D.Reconcile(m.bn.value, m.host.booted, probe);
      if !saved then m
      else m.(bn := Some(m.bn.value.(status := o.status)), host := m.host.(rebootIssued := o.reboot && reboots))
    case Stages(entry) => m.(host := m.host.(staged := Some(entry)))
    case Boots(booted) => m.(host := Host(booted, None, false))
    case NodeChanges(ready, taints, selectedBy, deleting) =>
      m.(node := Some(m.node.value.(ready := ready, taints := taints, selectedBy := selectedBy, deleting := deleting)))
    case ClaimChanges(deleting, rebooting, disrupted, terminating) =>
      m.(claim := Found(Claim(m.claim.claim.annotations, deleting, rebooting, disrupted, terminating)))
    case ClaimGoes => m.(claim := Gone)
    case NodeGoes => m.(node := None)
    case DaemonRestarts => m.(host := m.host.(rebootIssued := false))
    case AdminEdits(unschedulable, annotations, claimAnnotations) =>
      Edited(m, unschedulable, annotations, claimAnnotations)
  }

  function PassAfter(pass: Pass, m: Member, op: Op): Pass {
    if op.MarkSlot? && pass.Busy? && m.local.own.Some? && !HasSlot(m.local.own.value) && pass.budget > 0
    then pass.(budget := pass.budget - 1)
    else pass
  }

  /** What a pass lists when it begins. */
  function Listed(pool: Pool, deleting: bool, m: Member): Local {
    var matched := !deleting && m.node.Some? && pool in m.node.value.selectedBy;
    Local(matched,
          if matched then m.node else None,
          if matched then m.claim else NoRef,
          if m.bn.Some? && m.bn.value.owner == Some(pool) then m.bn else None,
          Untouched)
  }

  predicate OwnedBy(m: Member, pool: Pool) {
    m.bn.Some? && m.bn.value.owner == Some(pool)
  }

  predicate SlottedIn(m: Member, pool: Pool) {
    OwnedBy(m, pool) && HasSlot(m.bn.value)
  }

  function Slots(s: State, pool: Pool): set<Name> {
    set n | n in s.members && SlottedIn(s.members[n], pool)
  }

  /** The slots the running pass counts on its own copies. */
  function Occupied(s: State): set<Name> {
    set n | n in s.members && s.members[n].local.own.Some? && HasSlot(s.members[n].local.own.value)
  }

  /** A Node may register under a name whose Node is gone and not remembered by the running pass. A
      BootcNode that is left over under that name, and a drain, stay. */
  predicate MayReturn(m: Member) {
    m.node.None? && Unread(m.local)
  }

  /** A Node registers, for the first time or again. */
  function Registered(s: State, n: Name, node: Node, claim: ClaimRef, host: Host): State {
    var found := Baseline(node.unschedulable, node.annotations, if claim.Found? then claim.claim.annotations else map[]);
    var m := if n in s.members
             then s.members[n].(node := Some(node), claim := claim, host := host, found := found)
             else Member(None, Some(node), claim, host, None, NO_LOCAL, found);
    s.(members := s.members[n := m])
  }

  predicate Enabled(s: State, a: Action) {
    match a
    case On(n, op) =>
      && n in s.members && Guard(s.pass, s.members[n], op)
      && (s.members[n].local.own.Some? ==> s.members[n].bn.Some?)
    case Begin(p, image) => s.pass.Idle? && image.Digested? && p in s.pools && (s.pools[p].Live? || s.pools[p].Terminating?)
    case Roll =>
      && s.pass.Busy? && s.pass.stage == Syncing
      && forall n | n in s.members && s.members[n].local.own.Some? ::
           s.members[n].local.listed && s.members[n].local.own.value.desired == s.pass.image
    case Allot(_) => s.pass.Busy? && s.pass.stage == Rolling
    case End => s.pass.Busy?
    case Restart => true
    case DropFinalizer =>
      && s.pass.Busy? && s.pass.stage == Deleting
      && forall n | n in s.members :: s.members[n].local.own.None?
    case AddFinalizer(p) => p in s.pools && s.pools[p].NoFinalizer?
    case DeletePool(p) => p in s.pools && (s.pools[p].NoFinalizer? || s.pools[p].Live?)
    case Joins(n, node, claim, host) =>
      && (n in s.members ==> MayReturn(s.members[n]) && Agrees(Record(s.members[n]), node, claim))
      && node.managed != ByOperator
  }

  function Apply(s: State, a: Action): State
    requires Enabled(s, a)
  {
    match a
    case On(n, op) =>
      State(s.members[n := Effect(s.pass, s.members[n], op)], PassAfter(s.pass, s.members[n], op), s.pools)
    case Begin(p, image) =>
      var deleting := s.pools[p].Terminating?;
      s.(members := map n | n in s.members :: s.members[n].(local := Listed(p, deleting, s.members[n])),
         pass := Busy(p, image, if deleting then Deleting else Syncing, 0, 0))
    case Roll => s.(pass := s.pass.(stage := Rolling))
    case Allot(limit) =>
      var free := limit - |Occupied(s)|;
      s.(pass := s.pass.(budget := if free > 0 then free else 0, limit := limit))
    case End => s.(members := map n | n in s.members :: s.members[n].(local := NO_LOCAL), pass := Idle)
    case Restart =>
      s.(members := map n | n in s.members :: s.members[n].(local := NO_LOCAL, drain := None), pass := Idle)
    case DropFinalizer => s.(pools := s.pools[s.pass.pool := Removed])
    case AddFinalizer(p) => s.(pools := s.pools[p := Live])
    case DeletePool(p) => s.(pools := s.pools[p := if s.pools[p].NoFinalizer? then Removed else Terminating])
    case Joins(n, node, claim, host) => Registered(s, n, node, claim, host)
  }

  // ---- Runs ---------------------------------------------------------------------------------

  /** `acts` is a run of the protocol from `s`. */
  ghost predicate Legal(s: State, acts: seq<Action>)
    decreases |acts|, 0
  {
    acts == [] ||
    (Legal(s, acts[..|acts| - 1]) && Enabled(Replay(s, acts[..|acts| - 1]), acts[|acts| - 1]))
  }

  ghost function Replay(s: State, acts: seq<Action>): State
    requires Legal(s, acts)
    decreases |acts|, 1
  {
    if acts == [] then s
    else Apply(Replay(s, acts[..|acts| - 1]), acts[|acts| - 1])
  }

  lemma {:induction false} LegalPrefix(s: State, acts: seq<Action>, k: nat)
    requires Legal(s, acts) && k <= |acts|
    ensures Legal(s, acts[..k])
    decreases |acts|
  {
    if k < |acts| {
      LegalPrefix(s, acts[..|acts| - 1], k);
      assert acts[..|acts| - 1][..k] == acts[..k];
    } else {
      assert acts[..k] == acts;
    }
  }
}
