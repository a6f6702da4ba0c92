/** One reconcile of the per-node daemon, as a function of the BootcNode it read, the entry the
    host is booted into and what it probed. */
module Daemon {
  import opened Types

  /** What a reconcile learns besides the BootcNode: whether the host status could be read, the
      staged entry it saw, the outcome of the last stage operation and the clock. */
  datatype Probe = Probe(readable: bool, staged: Option<ImageInfo>, stageFailed: bool, inFlight: bool, now: int)

  datatype Outcome = Outcome(status: Status, reboot: bool)

  datatype UpdateAction = ActionStage | ActionAwaitStage | ActionAwaitBooted | ActionReboot

  /** Conditions keep their transition time while their status does not change. */
  function SetCondition(previous: Option<Condition>, status: Tri, reason: Reason, now: int): Condition {
    Condition(status, reason, if previous.Some? && previous.value.status == status then previous.value.since else now)
  }

  function ClassifyAction(bn: BootcNode, p: Probe): UpdateAction
    requires bn.desired.Digested?
  {
    if !InfoMatchesDigest(p.staged, bn.desired.digest) then
      if p.inFlight then ActionAwaitStage else ActionStage
    else if !bn.approved then ActionAwaitBooted
    else ActionReboot
  }

  function ActionReason(a: UpdateAction): Reason {
    match a
    case ActionStage => ReasonStaging
    case ActionAwaitStage => ReasonStaging
    case ActionAwaitBooted => ReasonStaged
    case ActionReboot => ReasonRebooting
  }

  /** The entry is of the very reference, of any reference by its digest, or of that content. */
  ghost predicate Runs(entry: ImageInfo, image: Ref)
    requires image.Digested?
  {
    || entry.pullspec == image
    || (exists repo :: entry.pullspec == Digested(repo, image.digest))
    || entry.contentDigest == image.digest
  }

  function Reconcile(bn: BootcNode, booted: Option<ImageInfo>, p: Probe): (o: Outcome)
    ensures o.reboot ==>
              && bn.approved && bn.desired.Digested?
              && !InfoMatchesDigest(booted, bn.desired.digest)
              && InfoMatchesDigest(p.staged, bn.desired.digest)
    ensures o.status.idle.Some?
    ensures booted.Some? && bn.desired.Digested? && Runs(booted.value, bn.desired) ==>
              !o.reboot && (p.readable ==> !o.status.degraded && o.status.idle.value.status == True)
  {
    var idle := SetCondition(bn.status.idle, True, ReasonIdle, p.now);
    if !p.readable then
      Outcome(bn.status.(idle := Some(idle), degraded := true), false)
    else
      var status := Status(booted, p.staged, Some(idle), false);
      if booted.None? || !bn.desired.Digested? then
        Outcome(status.(degraded := true), false)
      else if InfoMatchesDigest(booted, bn.desired.digest) then
        Outcome(status, false)
      else if p.stageFailed then
        Outcome(status.(degraded := true), false)
      else
        var action := ClassifyAction(bn, p);
        var busy := SetCondition(Some(idle), False, ActionReason(action), p.now);
        Outcome(status.(idle := Some(busy)), action == ActionReboot)
  }
}
