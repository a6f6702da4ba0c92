/** The reboot timeout measures from the last report of the daemon, and that is the one it saved when it
    issued the reboot, until the daemon itself comes back. */
module RebootClock {
  import opened Types
  import opened Classify
  import opened Cluster
  import D = Daemon
  import R = RolloutStates
  import S = Safety
  import B = Budget

  /** Whatever the condition was before, a reconcile that ends busy stamps its own time. */
  lemma BusyIsStampedNow(bn: BootcNode, booted: Option<ImageInfo>, p: D.Probe)
    ensures var idle := D.Reconcile(bn, booted, p).status.idle;
            idle.Some? && (idle.value.status == False ==> idle.value.since == p.now)
  {
  }

  /** The daemon reported at time `t` that it reboots, and has issued the reboot. */
  predicate RebootingSince(m: Member, t: int) {
    m.host.rebootIssued && m.bn.Some? && m.bn.value.status.idle == Some(Condition(False, ReasonRebooting, t))
  }

  /** The report is saved before the reboot is issued. */
  lemma ReportedBeforeIssued(s: State, a: Action, n: Name)
    requires B.IssuesReboot(s, a, n)
    ensures n in Apply(s, a).members && RebootingSince(Apply(s, a).members[n], a.op.probe.now)
  {
  }

  predicate Interrupts(a: Action, n: Name) {
    (a.On? && a.name == n && (a.op.Boots? || a.op.DaemonRestarts? || a.op.Delete?)) || (a.Joins? && a.name == n)
  }

  lemma OpKeepsClock(pass: Pass, m: Member, op: Op, t: int)
    requires Guard(pass, m, op) && (m.local.own.Some? ==> m.bn.Some?) && !op.Boots? && !op.DaemonRestarts? && !op.Delete?
    requires RebootingSince(m, t)
    ensures RebootingSince(Effect(pass, m, op), t)
  {
  }

  lemma StepKeepsClock(s: State, a: Action, n: Name, t: int)
    requires Enabled(s, a) && !Interrupts(a, n) && n in s.members && RebootingSince(s.members[n], t)
    ensures n in Apply(s, a).members && RebootingSince(Apply(s, a).members[n], t)
  {
    if a.On? && a.name == n { OpKeepsClock(s.pass, s.members[n], a.op, t); }
  }

  lemma {:induction false} RunKeepsClock(s: State, acts: seq<Action>, from: nat, n: Name, t: int)
    requires Legal(s, acts) && from <= |acts|
    requires n in S.At(s, acts, from).members && RebootingSince(S.At(s, acts, from).members[n], t)
    requires forall i | from <= i < |acts| :: !Interrupts(acts[i], n)
    ensures n in Replay(s, acts).members && RebootingSince(Replay(s, acts).members[n], t)
    decreases |acts|
  {
    if from == |acts| {
      assert acts[..from] == acts;
    } else {
      var k := |acts| - 1;
      assert acts[..k][..from] == acts[..from];
      RunKeepsClock(s, acts[..k], from, n, t);
      StepKeepsClock(Replay(s, acts[..k]), acts[k], n, t);
    }
  }

  /** After the daemon of `n` issues a reboot, and until its host boots, it starts again, its Node is
      replaced or its BootcNode is deleted, the node counts as timed out exactly when more than the timeout has passed
      since that report. */
  lemma TimeoutMeasuresFromReboot(s: State, acts: seq<Action>, k: nat, n: Name, timeout: int, now: int)
    requires Legal(s, acts) && k < |acts| && B.IssuesReboot(S.At(s, acts, k), acts[k], n)
    requires forall i | k < i < |acts| :: !Interrupts(acts[i], n)
    ensures n in Replay(s, acts).members && Replay(s, acts).members[n].bn.Some?
    ensures R.RebootTimedOut(Replay(s, acts).members[n].bn.value, timeout, now) <==>
            timeout > 0 && now - acts[k].op.probe.now > timeout
  {
    ReportedBeforeIssued(S.At(s, acts, k), acts[k], n);
    S.AtStep(s, acts, k);
    RunKeepsClock(s, acts, k + 1, n, acts[k].op.probe.now);
  }

  // ---- From any report -------------------------------------------------------------------------------

  /** The daemon of `n` saves a report. */
  predicate Reports(a: Action, n: Name) {
    a.On? && a.name == n && a.op.DaemonRuns? && a.op.saved
  }

  predicate Removes(a: Action, n: Name) {
    a.On? && a.name == n && a.op.Delete?
  }

  lemma StepKeepsReport(s: State, a: Action, n: Name)
    requires Enabled(s, a) && !Reports(a, n) && !Removes(a, n) && n in s.members && s.members[n].bn.Some?
    ensures n in Apply(s, a).members && Apply(s, a).members[n].bn.Some?
    ensures Apply(s, a).members[n].bn.value.status == s.members[n].bn.value.status
  {
  }

  lemma {:induction false} RunKeepsReport(s: State, acts: seq<Action>, from: nat, n: Name)
    requires Legal(s, acts) && from <= |acts|
    requires n in S.At(s, acts, from).members && S.At(s, acts, from).members[n].bn.Some?
    requires forall i | from <= i < |acts| :: !Reports(acts[i], n) && !Removes(acts[i], n)
    ensures n in Replay(s, acts).members && Replay(s, acts).members[n].bn.Some?
    ensures Replay(s, acts).members[n].bn.value.status == S.At(s, acts, from).members[n].bn.value.status
    decreases |acts|
  {
    if from == |acts| {
      assert acts[..from] == acts;
    } else {
      var k := |acts| - 1;
      assert acts[..k][..from] == acts[..from];
      RunKeepsReport(s, acts[..k], from, n);
      StepKeepsReport(Replay(s, acts[..k]), acts[k], n);
    }
  }

  /** Whatever else happens, host and daemon restarts included: until its daemon reports again, a node
      counts as timed out exactly when its last report was that it reboots, and that is more than the
      timeout ago. */
  lemma TimeoutMeasuresFromReport(s: State, acts: seq<Action>, k: nat, n: Name, timeout: int, now: int)
    requires Legal(s, acts) && k < |acts| && Reports(acts[k], n)
    requires forall i | k < i < |acts| :: !Reports(acts[i], n) && !Removes(acts[i], n)
    ensures n in S.At(s, acts, k).members && S.At(s, acts, k).members[n].bn.Some?
    ensures n in Replay(s, acts).members && Replay(s, acts).members[n].bn.Some?
    ensures var m, probe := S.At(s, acts, k).members[n], acts[k].op.probe;
            R.RebootTimedOut(Replay(s, acts).members[n].bn.value, timeout, now) <==>
            timeout > 0 && now - probe.now > timeout && D.Reconcile(m.bn.value, m.host.booted, probe).reboot
  {
    S.AtStep(s, acts, k);
    RunKeepsReport(s, acts, k + 1, n);
    ReportIsTimed(S.At(s, acts, k), acts[k], n, timeout, now);
  }

  lemma ReportIsTimed(s: State, a: Action, n: Name, timeout: int, now: int)
    requires Enabled(s, a) && Reports(a, n)
    ensures n in s.members && s.members[n].bn.Some? && n in Apply(s, a).members && Apply(s, a).members[n].bn.Some?
    ensures R.RebootTimedOut(Apply(s, a).members[n].bn.value, timeout, now) <==>
            timeout > 0 && now - a.op.probe.now > timeout
            && D.Reconcile(s.members[n].bn.value, s.members[n].host.booted, a.op.probe).reboot
  {
  }
}
