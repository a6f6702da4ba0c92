/** A Node that is deleted and registers again under its name finds the BootcNode of its predecessor, and
    others may edit a Node that holds a slot. The operator's promises survive either exactly if the record
    agrees with the Node as it then is. */
module Returns {
  import opened Types
  import opened Slot
  import opened Classify
  import opened Cluster
  import opened Invariants
  import opened Runs
  import S = Safety
  import D = Daemon

  /** What is promised of a Node at any time: no effect without a record, none at all without a slot. */
  predicate Kept(m: Member) {
    m.node.Some? && !m.node.value.deleting ==>
      S.NoOrphan(m) && (InRebootSlot !in Record(m) ==> S.Restored(m))
  }

  lemma GoodIsKept(pass: Pass, m: Member)
    requires Good(pass, m)
    ensures Kept(m)
  {
  }

  ghost predicate Breaks(s: State, n: Name) {
    exists t :: Leads(Anything(), s, t) && n in t.members && !Kept(t.members[n])
  }

  /** A node of a live pool whose Node is gone, and a newcomer for it. */
  predicate Returning(s: State, n: Name, p: Pool, node: Node, claim: ClaimRef) {
    && LiveAndIdle(s, p) && n in s.members && MayReturn(s.members[n]) && s.members[n].local == NO_LOCAL
    && s.members[n].bn.Some? && s.members[n].bn.value.owner == Some(p)
    && !node.deleting && node.managed != ByOperator
  }

  // ---- Undoing what was never done: the node leaves the pool ----------------------------------------

  /** Undoing the record takes something from the newcomer that the operator did not put there. */
  predicate Robbed(a: Annotations, node: Node, claim: ClaimRef) {
    || (Lookup(a, WasCordoned) == Some("false") && node.unschedulable)
    || (OwnsNodeRepair in a && Honoured(node.annotations, DoNotRepair))
    || (OwnsNodeDisrupt in a && Honoured(node.annotations, DoNotDisrupt))
    || (claim.Found? && OwnsClaimRepair in a && Honoured(claim.claim.annotations, DoNotRepair))
    || (claim.Found? && OwnsClaimDisrupt in a && Honoured(claim.claim.annotations, DoNotDisrupt))
  }

  predicate Leaves(m: Member, p: Pool) {
    && m.local == NO_LOCAL && m.bn.Some? && m.bn.value.owner == Some(p)
    && m.node.Some? && !m.node.value.deleting && p !in m.node.value.selectedBy
    && m.found.unschedulable == m.node.value.unschedulable && m.found.node == m.node.value.annotations
    && (m.claim.Found? ==> m.found.claim == m.claim.claim.annotations)
  }

  function Departing(m: Member, p: Pool): Member {
    m.(local := Listed(p, false, m), drain := None)
  }

  lemma LeavingUndoes(pass: Pass, m: Member, p: Pool)
    requires Leaves(m, p) && pass.Busy? && pass.stage == Syncing && pass.pool == p
    ensures var m0 := Departing(m, p);
            && Guard(pass, m0, Read) && var m1 := Effect(pass, m0, Read);
            && Guard(pass, m1, RestoreNode) && m1.bn.Some? && var m2 := Effect(pass, m1, RestoreNode);
            && Guard(pass, m2, RestoreClaim) && m2.bn.Some? && var m3 := Effect(pass, m2, RestoreClaim);
            && Unwound(m, m3)
            && m3.node == Some(RestoredNode(m.bn.value.annotations, m.node.value, false))
            && m3.claim == (if m.claim.Found? then Found(RestoredClaim(m.bn.value.annotations, m.claim.claim)) else m.claim)
  {
  }

  /** Node and claim are restored, and the pass still means to remove the node. */
  predicate Unwound(m: Member, m3: Member) {
    && m3.bn.Some? && m3.local.own.Some? && !m3.local.listed && m3.local.restore == ClaimDone
    && m3.node.Some? && m3.local.node == m3.node && m3.found == m.found && m3.drain.None?
  }

  lemma LeavingDeletes(pass: Pass, m: Member, m3: Member)
    requires Unwound(m, m3) && pass.Busy? && pass.stage == Syncing
    ensures && Guard(pass, m3, LabelOff) && var m4 := Effect(pass, m3, LabelOff);
            && Guard(pass, m4, Delete) && m4.bn.Some? && var m5 := Effect(pass, m4, Delete);
            && m5.bn.None? && m5.found == m.found && m5.claim == m3.claim
            && m5.node == Some(m3.node.value.(managed := Unlabelled))
  {
  }

  lemma LeavingRobs(m: Member, m': Member, p: Pool)
    requires Leaves(m, p) && Robbed(m.bn.value.annotations, m.node.value, m.claim)
    requires m'.bn.None? && m'.found == m.found
    requires m'.node == Some(RestoredNode(m.bn.value.annotations, m.node.value, false).(managed := Unlabelled))
    requires m'.claim == if m.claim.Found? then Found(RestoredClaim(m.bn.value.annotations, m.claim.claim)) else m.claim
    ensures !Kept(m')
  {
  }

  lemma LeavingBreaks(s: State, n: Name, p: Pool)
    requires LiveAndIdle(s, p) && n in s.members && Leaves(s.members[n], p)
    requires var m := s.members[n]; Robbed(m.bn.value.annotations, m.node.value, m.claim)
    ensures Breaks(s, n)
  {
    var m, any, image := s.members[n], Anything(), Digested("", "");
    var t := Opens(any, s, p, image, n);
    if m.drain.Some? {
      StepOn(any, s, t, n, m.(local := Listed(p, false, m)), CancelDrain);
      t := Apply(t, On(n, CancelDrain));
    }
    var m0 := Departing(m, p);
    LeavingUndoes(t.pass, m, p);
    StepOn(any, s, t, n, m0, Read);
    var t1, m1 := Apply(t, On(n, Read)), Effect(t.pass, m0, Read);
    StepOn(any, s, t1, n, m1, RestoreNode);
    var t2, m2 := Apply(t1, On(n, RestoreNode)), Effect(t.pass, m1, RestoreNode);
    StepOn(any, s, t2, n, m2, RestoreClaim);
    var t3, m3 := Apply(t2, On(n, RestoreClaim)), Effect(t.pass, m2, RestoreClaim);
    LeavingDeletes(t.pass, m, m3);
    StepOn(any, s, t3, n, m3, LabelOff);
    var t4, m4 := Apply(t3, On(n, LabelOff)), Effect(t.pass, m3, LabelOff);
    StepOn(any, s, t4, n, m4, Delete);
    LeavingRobs(m, Effect(t.pass, m4, Delete), p);
  }

  // ---- Cordoning on a wrong note: the node is updated -----------------------------------------------

  /** The note says that the Node was cordoned, but the newcomer is not. */
  predicate Misnoted(m: Member, p: Pool) {
    && m.local == NO_LOCAL && OwnedBy(m, p) && HasSlot(m.bn.value)
    && Lookup(m.bn.value.annotations, WasCordoned) == Some("true")
    && m.node.Some? && !m.node.value.deleting && !m.node.value.unschedulable && !m.found.unschedulable && !m.claim.Gone?
  }

  /** Selected, undisrupted, and seen as staged. */
  predicate Poised(m: Member, p: Pool) {
    && Misnoted(m, p) && p in m.node.value.selectedBy && !DisruptionActive(m.node.value, m.claim)
    && ClassifyNode(m.bn.value) == Some(Staged)
  }

  lemma PoisedCordons(pass: Pass, m: Member, p: Pool)
    requires Poised(m, p) && pass.Busy? && pass.stage == Rolling && pass.pool == p
    ensures var m0 := Listing(m, p);
            && Guard(pass, m0, MarkSlot) && PassAfter(pass, m0, MarkSlot) == pass && var m1 := Effect(pass, m0, MarkSlot);
            && m1.bn.Some? && m1.local.own.Some? && m1.local.node.Some?
            && (Recorded(m1.local) ==> Guard(pass, m1, FenceNode) && !Kept(Effect(pass, m1, FenceNode)))
  {
  }

  lemma MarkedIsRecorded(pass: Pass, m: Member, p: Pool)
    requires Poised(m, p) && pass.Busy? && pass.stage == Rolling && pass.pool == p
    requires var m0 := Listing(m, p); Guard(pass, m0, MarkSlot) && Effect(pass, m0, MarkSlot).local.own.Some?
    ensures var l := Effect(pass, Listing(m, p), MarkSlot).local; l.own.Some? && l.node.Some? && Recorded(l)
  {
    RecordedOnce(m.bn.value.annotations, m.node.value, m.claim);
  }

  lemma PoisedBreaks(s: State, n: Name, p: Pool, image: Ref)
    requires LiveAndIdle(s, p) && image.Digested? && InSync(s, p, image) && n in s.members && Poised(s.members[n], p)
    ensures Breaks(s, n)
  {
    var m, any := s.members[n], Anything();
    var t := Rolls(any, s, p, image, n);
    var m0 := Listing(m, p);
    PoisedCordons(t.pass, m, p);
    MarkedIsRecorded(t.pass, m, p);
    StepOn(any, s, t, n, m0, MarkSlot);
    var t1, m1 := Apply(t, On(n, MarkSlot)), Effect(t.pass, m0, MarkSlot);
    StepOn(any, s, t1, n, m1, FenceNode);
  }

  predicate OthersSelected(s: State, p: Pool, n: Name) {
    forall k | k in s.members && k != n && OwnedBy(s.members[k], p) ::
      s.members[k].node.Some? && p in s.members[k].node.value.selectedBy
  }

  predicate Selected(m: Member, p: Pool) {
    Misnoted(m, p) && p in m.node.value.selectedBy && !DisruptionActive(m.node.value, m.claim)
  }

  /** Karpenter leaves the node alone and the pool selects it. */
  lemma GetsSelected(s: State, n: Name, p: Pool) returns (t: State)
    requires LiveAndIdle(s, p) && n in s.members && Misnoted(s.members[n], p) && OthersSelected(s, p, n)
    ensures Leads(Anything(), s, t) && LiveAndIdle(t, p) && n in t.members && Selected(t.members[n], p) && AllSelected(t, p)
  {
    var m, any := s.members[n], Anything();
    var change := NodeChanges(True, [], m.node.value.selectedBy + {p}, false);
    LeadsNowhere(any, s);
    StepOn(any, s, s, n, m, change);
    t := Apply(s, On(n, change));
    var m1 := Effect(s.pass, m, change);
    if m1.claim.Found? {
      var calm := ClaimChanges(false, false, false, false);
      StepOn(any, s, t, n, m1, calm);
      t := Apply(t, On(n, calm));
    }
    forall k | k in t.members && OwnedBy(t.members[k], p)
      ensures t.members[k].node.Some? && p in t.members[k].node.value.selectedBy
    {
      if k != n { assert Stored(t.members[k]) == Stored(s.members[k]); }
    }
  }

  /** Rebooted into something else and with the image staged, the daemon reports it. */
  lemma GetsStaged(s: State, n: Name, p: Pool, image: Ref) returns (t: State)
    requires LiveAndIdle(s, p) && image.Digested? && InSync(s, p, image) && n in s.members
    requires Selected(s.members[n], p) && !s.members[n].bn.value.approved
    ensures Leads(Anything(), s, t) && LiveAndIdle(t, p) && InSync(t, p, image) && n in t.members && Poised(t.members[n], p)
  {
    var m, any, d := s.members[n], Anything(), image.digest;
    var other, entry := ImageInfo(Unparseable, d + "'"), ImageInfo(image, d);
    assert d + "'" != d;
    LeadsNowhere(any, s);
    StepOn(any, s, s, n, m, Boots(Some(other)));
    var s1, m1 := Apply(s, On(n, Boots(Some(other)))), m.(host := Host(Some(other), None, false));
    StepOn(any, s, s1, n, m1, Stages(entry));
    var s2, m2 := Apply(s1, On(n, Stages(entry))), m.(host := Host(Some(other), Some(entry), false));
    var report := DaemonRuns(D.Probe(true, Some(entry), false, false, 0), true, true);
    StepOn(any, s, s2, n, m2, report);
    t := Apply(s2, On(n, report));
    ReportsStaged(s2.pass, m2, image, entry);
    forall k | k in t.members && OwnedBy(t.members[k], p)
      ensures t.members[k].bn.value.desired == image
      ensures t.members[k].node.Some? && p in t.members[k].node.value.selectedBy
    {
      if k != n { assert Stored(t.members[k]) == Stored(s.members[k]); }
    }
  }

  lemma ReportsStaged(pass: Pass, m: Member, image: Ref, entry: ImageInfo)
    requires image.Digested? && m.bn.Some? && m.bn.value.desired == image && !m.bn.value.approved && !m.host.rebootIssued
    requires m.host.booted.Some? && !InfoMatchesDigest(m.host.booted, image.digest)
    requires InfoMatchesDigest(Some(entry), image.digest)
    ensures var report := DaemonRuns(D.Probe(true, Some(entry), false, false, 0), true, true);
            && EnvGuard(pass, m, report)
            && var m' := EnvEffect(pass, m, report);
               m'.bn.Some? && ClassifyNode(m'.bn.value) == Some(Staged) && SameButStatus(m'.bn.value, m.bn.value)
               && m'.node == m.node && m'.claim == m.claim && m'.found == m.found && m'.local == m.local
  {
  }

  lemma MisnotedBreaks(s: State, n: Name, p: Pool)
    requires LiveAndIdle(s, p) && n in s.members && Misnoted(s.members[n], p) && OthersSelected(s, p, n)
    ensures Breaks(s, n)
  {
    var any := Anything();
    var s1 := GetsSelected(s, n, p);
    var was := s1.members[n].bn.value.desired;
    var d := if was.Digested? then was.digest else "";
    var image := Digested("", d + "'");
    assert |d + "'"| == |d| + 1;
    var s2 := RetargetAll(s1, p, image);
    LeadsTrans(any, s, s1, s2);
    assert s2.members[n] == Stored(Aimed(s1.members[n], p, image));
    var s3 := GetsStaged(s2, n, p, image);
    LeadsTrans(any, s, s2, s3);
    PoisedBreaks(s3, n, p, image);
    var t :| Leads(any, s3, t) && n in t.members && !Kept(t.members[n]);
    LeadsTrans(any, s, s3, t);
  }

  // ---- The exact condition ---------------------------------------------------------------------------

  lemma DisagreesEitherWay(a: Annotations, node: Node, claim: ClaimRef)
    requires Paired(a)
    ensures !Agrees(a, node, claim) <==>
            Robbed(a, node, claim) || (Lookup(a, WasCordoned) == Some("true") && !node.unschedulable)
  {
  }

  /** The newcomer leaves the pool. */
  lemma RobbedBreaks(s: State, n: Name, p: Pool)
    requires LiveAndIdle(s, p) && n in s.members && s.members[n].node.Some?
    requires Leaves(s.members[n].(node := Some(s.members[n].node.value.(selectedBy := {}))), p)
    requires var m := s.members[n]; Robbed(m.bn.value.annotations, m.node.value, m.claim)
    ensures Breaks(s, n)
  {
    var m, any := s.members[n], Anything();
    var change := NodeChanges(m.node.value.ready, m.node.value.taints, {}, false);
    LeadsNowhere(any, s);
    StepOn(any, s, s, n, m, change);
    var s1 := Apply(s, On(n, change));
    LeavingBreaks(s1, n, p);
    var t :| Leads(any, s1, t) && n in t.members && !Kept(t.members[n]);
    LeadsTrans(any, s, s1, t);
  }

  lemma InvIsKept(s: State, n: Name)
    requires Inv(s)
    ensures !Breaks(s, n)
  {
    forall t | Leads(Anything(), s, t) && n in t.members
      ensures Kept(t.members[n])
    {
      LeadsKeepsInv(Anything(), s, t);
      GoodIsKept(t.pass, t.members[n]);
    }
  }

  /** A Node returns to a live pool that selects its other nodes, with its claim if it names one. Then
      some run breaks the promises to it if and only if the record left over does not agree with it. */
  lemma ReturnBreaksIff(s: State, n: Name, p: Pool, node: Node, claim: ClaimRef, host: Host)
    requires Inv(s) && Returning(s, n, p, node, claim) && OthersSelected(s, p, n) && !claim.Gone?
    ensures Breaks(Registered(s, n, node, claim, host), n) <==> !Agrees(Record(s.members[n]), node, claim)
  {
    var r := Registered(s, n, node, claim, host);
    var a := Record(s.members[n]);
    assert Good(s.pass, s.members[n]);
    DisagreesEitherWay(a, node, claim);
    if Robbed(a, node, claim) {
      RobbedBreaks(r, n, p);
    } else if !Agrees(a, node, claim) {
      MisnotedBreaks(r, n, p);
    } else {
      JoinKeepsInv(s, n, node, claim, host);
      InvIsKept(r, n);
    }
  }

  /** An input: the predecessor was cordoned by an administrator when it got its slot, the newcomer is
      not. The operator's cordon on it is then never undone. */
  function Orphaned(): State {
    var bn := BootcNode(Some("p"), Digested("os", "a"), false, map[InRebootSlot := "", WasCordoned := "true"], NO_STATUS);
    var m := Member(Some(bn), None, NoRef, Host(None, None, false), None, NO_LOCAL, Baseline(true, map[], map[]));
    State(map["n" := m], Idle, map["p" := Live])
  }

  lemma OrphanedBreaks(host: Host)
    ensures Inv(Orphaned())
    ensures Breaks(Registered(Orphaned(), "n", Node(false, map[], [], True, false, Unlabelled, {"p"}), NoRef, host), "n")
  {
    var node := Node(false, map[], [], True, false, Unlabelled, {"p"});
    ReturnBreaksIff(Orphaned(), "n", "p", node, NoRef, host);
  }

  // ---- Edits by others -------------------------------------------------------------------------------

  /** Cordon and annotations of `n` are edited, in agreement with the record or not. */
  function EditedAt(s: State, n: Name, unschedulable: bool, annotations: Annotations, claimAnnotations: Annotations): State
    requires n in s.members && s.members[n].node.Some?
  {
    s.(members := s.members[n := Edited(s.members[n], unschedulable, annotations, claimAnnotations)])
  }

  /** A node of a live pool, between passes, that somebody can edit. */
  predicate Editable(s: State, n: Name, p: Pool) {
    && LiveAndIdle(s, p) && n in s.members && OwnedBy(s.members[n], p) && !s.members[n].claim.Gone?
    && s.members[n].node.Some? && !s.members[n].node.value.deleting
  }

  lemma AgreeingEditKept(s: State, n: Name, p: Pool, unschedulable: bool, annotations: Annotations,
                         claimAnnotations: Annotations)
    requires Inv(s) && Editable(s, n, p)
    requires var m := Edited(s.members[n], unschedulable, annotations, claimAnnotations);
             Agrees(Record(s.members[n]), m.node.value, m.claim)
    ensures !Breaks(EditedAt(s, n, unschedulable, annotations, claimAnnotations), n)
  {
    var op := AdminEdits(unschedulable, annotations, claimAnnotations);
    var m := s.members[n];
    assert Good(s.pass, m);
    assert Guard(s.pass, m, op);
    assert Apply(s, On(n, op)) == EditedAt(s, n, unschedulable, annotations, claimAnnotations);
    StepKeepsInv(s, On(n, op));
    InvIsKept(Apply(s, On(n, op)), n);
  }

  lemma DisagreeingEditBreaks(s: State, n: Name, p: Pool, unschedulable: bool, annotations: Annotations,
                              claimAnnotations: Annotations)
    requires Inv(s) && Editable(s, n, p) && OthersSelected(s, p, n)
    requires var m := Edited(s.members[n], unschedulable, annotations, claimAnnotations);
             !Agrees(Record(s.members[n]), m.node.value, m.claim)
    ensures Breaks(EditedAt(s, n, unschedulable, annotations, claimAnnotations), n)
  {
    var e := EditedAt(s, n, unschedulable, annotations, claimAnnotations);
    var a, m := Record(s.members[n]), e.members[n];
    assert Good(s.pass, s.members[n]);
    DisagreesEitherWay(a, m.node.value, m.claim);
    if Robbed(a, m.node.value, m.claim) {
      RobbedBreaks(e, n, p);
    } else {
      MisnotedBreaks(e, n, p);
    }
  }

  /** Cordon and annotations of a Node and its claim are edited while its pool, which selects its other
      nodes, is idle. Then some run breaks the promises to it if and only if the record does not agree
      with the Node as edited. */
  lemma EditBreaksIff(s: State, n: Name, p: Pool, unschedulable: bool, annotations: Annotations,
                      claimAnnotations: Annotations)
    requires Inv(s) && Editable(s, n, p) && OthersSelected(s, p, n)
    ensures var e := EditedAt(s, n, unschedulable, annotations, claimAnnotations);
            Breaks(e, n) <==> !Agrees(Record(s.members[n]), e.members[n].node.value, e.members[n].claim)
  {
    var m := Edited(s.members[n], unschedulable, annotations, claimAnnotations);
    if Agrees(Record(s.members[n]), m.node.value, m.claim) {
      AgreeingEditKept(s, n, p, unschedulable, annotations, claimAnnotations);
    } else {
      DisagreeingEditBreaks(s, n, p, unschedulable, annotations, claimAnnotations);
    }
  }

  /** An input: an administrator had cordoned the Node before it got its slot, and uncordons it while it
      holds it. */
  function Uncordoned(): State {
    var bn := BootcNode(Some("p"), Digested("os", "a"), false, map[InRebootSlot := "", WasCordoned := "true"], NO_STATUS);
    var node := Node(true, map[], [], True, false, Unlabelled, {"p"});
    var m := Member(Some(bn), Some(node), NoRef, Host(None, None, false), None, NO_LOCAL, Baseline(true, map[], map[]));
    State(map["n" := m], Idle, map["p" := Live])
  }

  lemma UncordonedBreaks()
    ensures Inv(Uncordoned()) && Breaks(EditedAt(Uncordoned(), "n", false, map[], map[]), "n")
  {
    EditBreaksIff(Uncordoned(), "n", "p", false, map[], map[]);
  }

  // ---- Edits behind the back of a pass ---------------------------------------------------------------

  /** A pass is about to give `n` its slot and has read the Node as schedulable. */
  predicate AboutToMark(s: State, n: Name) {
    && s.pass.Busy? && s.pass.pool in s.pools && s.pools[s.pass.pool].Live?
    && Enabled(s, On(n, MarkSlot)) && s.members[n].node.Some? && !s.members[n].node.value.deleting
    && !HasSlot(s.members[n].local.own.value) && !s.members[n].local.node.value.unschedulable
  }

  lemma MarksStale(pass: Pass, m: Member, annotations: Annotations, claimAnnotations: Annotations)
    requires m.node.Some? && Good(pass, m) && Guard(pass, m, MarkSlot)
    requires !HasSlot(m.local.own.value) && !m.local.node.value.unschedulable
    ensures var e := Edited(m, true, annotations, claimAnnotations);
            && Guard(pass, e, MarkSlot) && e.bn.Some? && var e' := Stored(Effect(pass, e, MarkSlot));
            && OwnedBy(e', pass.pool) && e'.node == e.node && e'.claim == e.claim && e'.found == e.found
            && Robbed(e'.bn.value.annotations, e'.node.value, e'.claim)
  {
  }

  /** If an administrator cordons the Node between the pass's reading it and its marking the slot, the
      note is wrong, and some run then uncordons the Node. */
  lemma EditWithinPassBreaks(s: State, n: Name, annotations: Annotations, claimAnnotations: Annotations)
    requires Inv(s) && AboutToMark(s, n)
    ensures Breaks(EditedAt(s, n, true, annotations, claimAnnotations), n)
  {
    var e, p, any := EditedAt(s, n, true, annotations, claimAnnotations), s.pass.pool, Anything();
    assert Good(s.pass, s.members[n]);
    MarksStale(s.pass, s.members[n], annotations, claimAnnotations);
    LeadsNowhere(any, e);
    StepOn(any, e, e, n, e.members[n], MarkSlot);
    var t := Apply(e, On(n, MarkSlot));
    var u := Closes(any, e, t, n, t.members[n]);
    RobbedBreaks(u, n, p);
    var v :| Leads(any, u, v) && n in v.members && !Kept(v.members[n]);
    LeadsTrans(any, e, u, v);
  }
}
