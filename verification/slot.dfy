/** What assigning and freeing a reboot slot write on a BootcNode, its Node and its NodeClaim,
    as functions of the objects that were read. */
module Slot {
  import opened Types

  /** Removing an owned annotation leaves all others as they are. */
  lemma OnlyOwnedGoes(owner: Annotations, target: Annotations, ownerKey: Key, targetKey: Key)
    ensures forall k | k != targetKey :: Lookup(RemoveOwned(owner, target, ownerKey, targetKey), k) == Lookup(target, k)
    ensures targetKey in RemoveOwned(owner, target, ownerKey, targetKey) <==> targetKey in target && ownerKey !in owner
  {
  }

  predicate HasSlot(bn: BootcNode) {
    InRebootSlot in bn.annotations
  }

  /** Records ownership if it is needed and not on record yet. */
  function Note(owner: Annotations, ownerKey: Key, needed: bool): Annotations {
    if needed && ownerKey !in owner then owner[ownerKey := "true"] else owner
  }

  /** Sets `targetKey` to "true" on the target and records on the owner that the operator did
      so, unless the target already has that value. */
  function EnsureOwned(owner: Annotations, target: Annotations, ownerKey: Key, targetKey: Key)
    : (r: (Annotations, Annotations))
    ensures Honoured(r.1, targetKey)
    ensures Honoured(target, targetKey) ==> r == (owner, target)
    ensures !Honoured(target, targetKey) ==> ownerKey in r.0
    ensures forall k | k != targetKey :: Lookup(r.1, k) == Lookup(target, k)
    ensures forall k | k != ownerKey || k in owner :: Lookup(r.0, k) == Lookup(owner, k)
  {
    if Honoured(target, targetKey) then (owner, target)
    else (Note(owner, ownerKey, true), target[targetKey := "true"])
  }

  /** Removes `targetKey` from the target if the owner recorded having set it. */
  function RemoveOwned(owner: Annotations, target: Annotations, ownerKey: Key, targetKey: Key)
    : (r: Annotations)
    ensures ownerKey in owner ==> targetKey !in r && (targetKey !in target ==> r == target)
    ensures ownerKey !in owner ==> r == target
    ensures targetKey in target ==> r[targetKey := target[targetKey]] == target
  {
    if ownerKey in owner then target - {targetKey} else target
  }

  /** Marks the slot; whether the Node was cordoned is noted only with the first mark. */
  function SlotMarked(a: Annotations, node: Node): (r: Annotations)
    ensures InRebootSlot in r && r[InRebootSlot] == ""
    ensures Lookup(r, WasCordoned) ==
            if InRebootSlot in a then Lookup(a, WasCordoned)
            else Some(if node.unschedulable then "true" else "false")
    ensures forall k | k in {OwnsNodeRepair, OwnsNodeDisrupt, OwnsClaimRepair, OwnsClaimDisrupt} :: k in r <==> k in a
  {
    var marked := a[InRebootSlot := ""];
    if InRebootSlot in a then marked
    else marked[WasCordoned := if node.unschedulable then "true" else "false"]
  }

  function NodeRecord(a: Annotations, node: Node, claim: ClaimRef): (r: Annotations)
    ensures OwnsNodeRepair in r <==>
            OwnsNodeRepair in a || (!claim.NoRef? && !Honoured(node.annotations, DoNotRepair))
    ensures OwnsNodeDisrupt in r <==>
            OwnsNodeDisrupt in a || (!claim.NoRef? && !Honoured(node.annotations, DoNotDisrupt))
    ensures forall k | k in {InRebootSlot, WasCordoned, OwnsClaimRepair, OwnsClaimDisrupt} :: Lookup(r, k) == Lookup(a, k)
  {
    var first := Note(a, OwnsNodeRepair, !claim.NoRef? && !Honoured(node.annotations, DoNotRepair));
    Note(first, OwnsNodeDisrupt, !claim.NoRef? && !Honoured(node.annotations, DoNotDisrupt))
  }

  function ClaimRecord(a: Annotations, claim: ClaimRef): (r: Annotations)
    ensures OwnsClaimRepair in r <==>
            OwnsClaimRepair in a || (claim.Found? && !Honoured(claim.claim.annotations, DoNotRepair))
    ensures OwnsClaimDisrupt in r <==>
            OwnsClaimDisrupt in a || (claim.Found? && !Honoured(claim.claim.annotations, DoNotDisrupt))
    ensures forall k | k in {InRebootSlot, WasCordoned, OwnsNodeRepair, OwnsNodeDisrupt} :: Lookup(r, k) == Lookup(a, k)
  {
    var first := Note(a, OwnsClaimRepair, claim.Found? && !Honoured(claim.claim.annotations, DoNotRepair));
    Note(first, OwnsClaimDisrupt, claim.Found? && !Honoured(claim.claim.annotations, DoNotDisrupt))
  }

  /** The annotations a BootcNode carries once the slot and its ownership are recorded. */
  function SlotRecord(a: Annotations, node: Node, claim: ClaimRef): (r: Annotations)
    ensures InRebootSlot in r && r[InRebootSlot] == ""
    ensures Lookup(r, WasCordoned) ==
            if InRebootSlot in a then Lookup(a, WasCordoned)
            else Some(if node.unschedulable then "true" else "false")
    ensures OwnsNodeRepair in r <==>
            OwnsNodeRepair in a || (!claim.NoRef? && !Honoured(node.annotations, DoNotRepair))
    ensures OwnsNodeDisrupt in r <==>
            OwnsNodeDisrupt in a || (!claim.NoRef? && !Honoured(node.annotations, DoNotDisrupt))
    ensures OwnsClaimRepair in r <==>
            OwnsClaimRepair in a || (claim.Found? && !Honoured(claim.claim.annotations, DoNotRepair))
    ensures OwnsClaimDisrupt in r <==>
            OwnsClaimDisrupt in a || (claim.Found? && !Honoured(claim.claim.annotations, DoNotDisrupt))
    ensures Lookup(r, OwnsTaint) == Lookup(a, OwnsTaint)
  {
    ClaimRecord(NodeRecord(SlotMarked(a, node), node, claim), claim)
  }

  /** Recording a slot only adds: the keys of slot, cordon and ownership, the latter as "true" and only if
      they were not there; every other key keeps its value. */
  lemma RecordingOnlyAdds(a: Annotations, node: Node, claim: ClaimRef, k: Key)
    ensures var r := SlotRecord(a, node, claim);
            if k in {OwnsNodeRepair, OwnsNodeDisrupt, OwnsClaimRepair, OwnsClaimDisrupt} then
              Lookup(r, k) == Lookup(a, k) || (k !in a && Lookup(r, k) == Some("true"))
            else if k == WasCordoned then InRebootSlot in a ==> Lookup(r, k) == Lookup(a, k)
            else if k == InRebootSlot then Lookup(r, k) == Some("")
            else Lookup(r, k) == Lookup(a, k)
  {
    var marked := SlotMarked(a, node);
    assert k !in {InRebootSlot, WasCordoned} ==> Lookup(marked, k) == Lookup(a, k);
    NodeRecordOnlyAdds(marked, node, claim, k);
    ClaimRecordOnlyAdds(NodeRecord(marked, node, claim), claim, k);
  }

  lemma NodeRecordOnlyAdds(a: Annotations, node: Node, claim: ClaimRef, k: Key)
    ensures var r := NodeRecord(a, node, claim);
            || Lookup(r, k) == Lookup(a, k)
            || (k in {OwnsNodeRepair, OwnsNodeDisrupt} && k !in a && Lookup(r, k) == Some("true"))
  {
  }

  lemma ClaimRecordOnlyAdds(a: Annotations, claim: ClaimRef, k: Key)
    ensures var r := ClaimRecord(a, claim);
            || Lookup(r, k) == Lookup(a, k)
            || (k in {OwnsClaimRepair, OwnsClaimDisrupt} && k !in a && Lookup(r, k) == Some("true"))
  {
  }

  /** Recording a slot again adds nothing. */
  lemma RecordedOnce(a: Annotations, node: Node, claim: ClaimRef)
    ensures var r := SlotRecord(a, node, claim); SlotRecord(r, node, claim) == r
  {
    var r := SlotRecord(a, node, claim);
    assert r[InRebootSlot := ""] == r;
  }

  function Fenced(a: Annotations): Annotations {
    a[DoNotRepair := "true"][DoNotDisrupt := "true"]
  }

  /** Ensuring both fences one after the other sets both and records exactly those not set before. */
  lemma EnsuringIsFencing(owner: Annotations, target: Annotations, repair: Key, disrupt: Key)
    requires repair != disrupt
    ensures var r1 := EnsureOwned(owner, target, repair, DoNotRepair);
            var r2 := EnsureOwned(r1.0, r1.1, disrupt, DoNotDisrupt);
            && r2.1 == Fenced(target)
            && r2.0 == Note(Note(owner, repair, !Honoured(target, DoNotRepair)), disrupt, !Honoured(target, DoNotDisrupt))
  {
    var r1 := EnsureOwned(owner, target, repair, DoNotRepair);
    assert r1.1 == target[DoNotRepair := "true"];
    assert EnsureOwned(r1.0, r1.1, disrupt, DoNotDisrupt).1 == r1.1[DoNotDisrupt := "true"];
  }

  function FencedNode(node: Node, claim: ClaimRef): Node {
    node.(unschedulable := true,
          annotations := if claim.NoRef? then node.annotations else Fenced(node.annotations))
  }

  function FencedClaim(claim: Claim): Claim {
    claim.(annotations := Fenced(claim.annotations))
  }

  /** The Node with everything undone that the BootcNode's annotations `a` record. */
  function RestoredNode(a: Annotations, node: Node, dropTaint: bool): Node {
    var r1 := RemoveOwned(a, node.annotations, OwnsNodeRepair, DoNotRepair);
    var r2 := RemoveOwned(a, r1, OwnsNodeDisrupt, DoNotDisrupt);
    node.(annotations := r2,
          unschedulable := if Lookup(a, WasCordoned) == Some("false") then false else node.unschedulable,
          taints := if dropTaint then WithoutStartupTaint(node.taints) else node.taints)
  }

  /** Whether restoring sends a Node patch at all; an operator cordon always does. */
  predicate NodePatchNeeded(a: Annotations, node: Node, dropTaint: bool) {
    RestoredNode(a, node, dropTaint) != node || Lookup(a, WasCordoned) == Some("false")
  }

  function RestoredClaim(a: Annotations, claim: Claim): Claim {
    var r1 := RemoveOwned(a, claim.annotations, OwnsClaimRepair, DoNotRepair);
    claim.(annotations := RemoveOwned(a, r1, OwnsClaimDisrupt, DoNotDisrupt))
  }

  function ClearedRecord(a: Annotations): Annotations {
    a - {OwnsNodeRepair, OwnsNodeDisrupt, OwnsClaimRepair, OwnsClaimDisrupt,
         OwnsTaint, WasCordoned, InRebootSlot}
  }

  /** Clearing the record takes exactly what slots and taints put there. */
  lemma ClearingLeavesOthers(a: Annotations, k: Key)
    ensures Lookup(ClearedRecord(a), k) ==
            if k.OtherKey? || k in {DoNotRepair, DoNotDisrupt} then Lookup(a, k) else None
  {
  }

  /** Fencing on the fields: a Node is cordoned and, if it names a claim, fenced like the claim; nothing
      else changes. */
  lemma FencingMeans(node: Node, claim: ClaimRef, c: Claim)
    ensures var f := FencedNode(node, claim);
            && f == node.(unschedulable := true, annotations := f.annotations)
            && (claim.NoRef? ==> f.annotations == node.annotations)
            && (!claim.NoRef? ==> forall k :: Lookup(f.annotations, k) ==
                                    if k in {DoNotRepair, DoNotDisrupt} then Some("true") else Lookup(node.annotations, k))
    ensures var f := FencedClaim(c);
            && f == c.(annotations := f.annotations)
            && forall k :: Lookup(f.annotations, k) ==
                 if k in {DoNotRepair, DoNotDisrupt} then Some("true") else Lookup(c.annotations, k)
  {
  }

  /** Undoing on the fields: what is on record goes, the rest stays. */
  lemma RestoringMeans(a: Annotations, node: Node, c: Claim, drop: bool)
    ensures var r := RestoredNode(a, node, drop);
            && r == node.(unschedulable := r.unschedulable, annotations := r.annotations, taints := r.taints)
            && (r.unschedulable <==> node.unschedulable && Lookup(a, WasCordoned) != Some("false"))
            && (forall k :: Lookup(r.annotations, k) ==
                  if (k == DoNotRepair && OwnsNodeRepair in a) || (k == DoNotDisrupt && OwnsNodeDisrupt in a)
                  then None else Lookup(node.annotations, k))
            && (if drop then !HasStartupTaint(r.taints) else r.taints == node.taints)
    ensures var r := RestoredClaim(a, c);
            && r == c.(annotations := r.annotations)
            && forall k :: Lookup(r.annotations, k) ==
                 if (k == DoNotRepair && OwnsClaimRepair in a) || (k == DoNotDisrupt && OwnsClaimDisrupt in a)
                 then None else Lookup(c.annotations, k)
  {
  }

  /** Dropping the startup taint adds none. */
  lemma {:induction false} OthersRemain(taints: seq<Taint>)
    ensures forall t | t in WithoutStartupTaint(taints) :: t in taints
  {
    if taints != [] { OthersRemain(taints[1..]); }
  }

  /** Whether Karpenter owns a lifecycle operation that defers slot and drain. */
  predicate DisruptionActive(node: Node, claim: ClaimRef) {
    || node.deleting
    || Taint(KarpenterRebooting, NoSchedule) in node.taints
    || Taint(KarpenterDisrupted, NoSchedule) in node.taints
    || claim.Gone?
    || (claim.Found? &&
        (claim.claim.deleting || claim.claim.rebooting || claim.claim.disrupted || claim.claim.terminating))
  }
}
