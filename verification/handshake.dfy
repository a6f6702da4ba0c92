/** The two sides of a BootcNode agree: what the daemon reports about its host is what the controller
    reads from it. */
module Handshake {
  import opened Types
  import opened Classify
  import D = Daemon

  /** What the controller makes of the status a reconcile of the daemon leaves. */
  function Understood(bn: BootcNode, booted: Option<ImageInfo>, p: D.Probe): Option<NodeState> {
    ClassifyNode(bn.(status := D.Reconcile(bn, booted, p).status))
  }

  predicate Booted(bn: BootcNode, booted: Option<ImageInfo>) {
    bn.desired.Digested? && InfoMatchesDigest(booted, bn.desired.digest)
  }

  predicate Ready(bn: BootcNode, p: D.Probe) {
    bn.desired.Digested? && InfoMatchesDigest(p.staged, bn.desired.digest)
  }

  /** Nothing stands in the way of the update. */
  predicate Sane(bn: BootcNode, booted: Option<ImageInfo>, p: D.Probe) {
    p.readable && booted.Some? && bn.desired.Digested? && (Booted(bn, booted) || !p.stageFailed)
  }

  /** For every BootcNode, host and probe, whatever the status said before: the controller sees the
      node Degraded exactly if something stands in the way, UpToDate exactly if the host runs the
      image, Rebooting exactly if the daemon is about to reboot, Staged exactly if it waits for
      approval with the image staged, Staging exactly if the image is not staged; and the daemon
      reboots exactly if it is approved, staged, and not on the image. */
  lemma ReportIsUnderstood(bn: BootcNode, booted: Option<ImageInfo>, p: D.Probe)
    ensures var c := Understood(bn, booted, p);
            && (c == Some(Degraded) <==> !Sane(bn, booted, p))
            && (c == Some(UpToDate) <==> Sane(bn, booted, p) && Booted(bn, booted))
            && (c == Some(Staging) <==> Sane(bn, booted, p) && !Booted(bn, booted) && !Ready(bn, p))
            && (c == Some(Staged) <==> Sane(bn, booted, p) && !Booted(bn, booted) && Ready(bn, p) && !bn.approved)
            && (c == Some(Rebooting) <==> Sane(bn, booted, p) && !Booted(bn, booted) && Ready(bn, p) && bn.approved)
            && (c == Some(Rebooting) <==> D.Reconcile(bn, booted, p).reboot)
            && c.Some? && c != Some(Pending)
  {
  }

  /** The same on the fields of the entries. A host that booted the very reference it was told to run is up
      to date whatever the content digest, as with manifest lists; so is one that booted that content under
      any reference; and no other readable host is. The daemon reboots exactly into an entry that is staged
      by the same measure. */
  lemma MatchIsByReferenceOrContent(bn: BootcNode, booted: Option<ImageInfo>, p: D.Probe)
    ensures Understood(bn, booted, p) == Some(UpToDate) <==>
            p.readable && booted.Some? && bn.desired.Digested? && D.Runs(booted.value, bn.desired)
    ensures D.Reconcile(bn, booted, p).reboot <==>
            && p.readable && !p.stageFailed && bn.approved && booted.Some? && bn.desired.Digested?
            && !D.Runs(booted.value, bn.desired) && p.staged.Some? && D.Runs(p.staged.value, bn.desired)
  {
    if bn.desired.Digested? {
      if booted.Some? { RunsIsMatch(booted.value, bn.desired); }
      if p.staged.Some? { RunsIsMatch(p.staged.value, bn.desired); }
    }
  }

  lemma RunsIsMatch(entry: ImageInfo, image: Ref)
    requires image.Digested?
    ensures D.Runs(entry, image) <==> InfoMatchesDigest(Some(entry), image.digest)
  {
    if entry.pullspec.Digested? && entry.pullspec.digest == image.digest {
      assert entry.pullspec == Digested(entry.pullspec.repo, image.digest);
    }
  }

  /** The manifest-list case: the reference names one digest, the content another. */
  lemma ManifestListIsRun(bn: BootcNode, content: Digest, p: D.Probe)
    requires bn.desired.Digested? && p.readable
    ensures var booted := Some(ImageInfo(bn.desired, content));
            Understood(bn, booted, p) == Some(UpToDate) && !D.Reconcile(bn, booted, p).reboot
  {
  }

  /** The report is of the host as it is, if it can be read; otherwise it stays as it was, but degraded. */
  lemma ReportIsTrue(bn: BootcNode, booted: Option<ImageInfo>, p: D.Probe)
    ensures var status := D.Reconcile(bn, booted, p).status;
            if p.readable then status.booted == booted && status.staged == p.staged
            else status.booted == bn.status.booted && status.staged == bn.status.staged && status.degraded
  {
  }

  /** A node that was idle and is idle has been so since it was. */
  lemma IdleKeepsItsTime(bn: BootcNode, booted: Option<ImageInfo>, p: D.Probe)
    requires bn.status.idle.Some? && bn.status.idle.value.status == True
    ensures var idle := D.Reconcile(bn, booted, p).status.idle;
            idle.Some? && (idle.value.status == True ==> idle.value.since == bn.status.idle.value.since)
  {
  }

  /** What the daemon does next for a host that is not on the image: it stages an image that is neither staged
      nor on its way, waits for the stage or for approval, or reboots. */
  lemma NextAction(bn: BootcNode, p: D.Probe)
    requires bn.desired.Digested?
    ensures var staged := p.staged.Some? && D.Runs(p.staged.value, bn.desired);
            && (D.ClassifyAction(bn, p) == D.ActionStage <==> !staged && !p.inFlight)
            && (D.ClassifyAction(bn, p) == D.ActionAwaitStage <==> !staged && p.inFlight)
            && (D.ClassifyAction(bn, p) == D.ActionAwaitBooted <==> staged && !bn.approved)
            && (D.ClassifyAction(bn, p) == D.ActionReboot <==> staged && bn.approved)
  {
    if p.staged.Some? { RunsIsMatch(p.staged.value, bn.desired); }
  }
}
