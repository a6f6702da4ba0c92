/** How the controller reads the state of a node from its BootcNode. */
module Classify {
  import opened Types

  datatype NodeState = UpToDate | Pending | Staging | Staged | Rebooting | Degraded

  /** None when the desired image carries no digest. */
  function ClassifyNode(bn: BootcNode): Option<NodeState> {
    if bn.status.degraded then Some(Degraded)
    else if bn.status.booted.None? then Some(Pending)
    else if !bn.desired.Digested? then None
    else if InfoMatchesDigest(bn.status.booted, bn.desired.digest) then Some(UpToDate)
    else if bn.status.idle.Some? && bn.status.idle.value.status == False then
      match bn.status.idle.value.reason
      case ReasonStaging => Some(Staging)
      case ReasonStaged => Some(Staged)
      case ReasonRebooting => Some(Rebooting)
      case _ => Some(Pending)
    else Some(Pending)
  }

  /** A node is left unclassified exactly if it reports an entry, is not degraded, and is to run an image
      without a digest. */
  lemma UnclassifiedIff(bn: BootcNode)
    ensures ClassifyNode(bn).None? <==> !bn.status.degraded && bn.status.booted.Some? && !bn.desired.Digested?
  {
  }

  /** Until it has reported, a node is pending. */
  lemma NewIsPending(bn: BootcNode)
    requires bn.status == NO_STATUS
    ensures ClassifyNode(bn) == Some(Pending)
  {
  }
}
