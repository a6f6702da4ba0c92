/** Building runs step by step: what a state can lead to when every step is one that is allowed. */
module Runs {
  import opened Types
  import opened Slot
  import opened Cluster
  import opened Invariants
  import S = Safety

  type Allowed = (State, Action) -> bool

  function Anything(): Allowed {
    (s: State, a: Action) => true
  }

  /** `acts` is a run from `s` to `t`, and each of its steps is allowed. */
  ghost predicate Run(allowed: Allowed, s: State, acts: seq<Action>, t: State) {
    && Legal(s, acts) && Replay(s, acts) == t
    && forall k: nat | k < |acts| :: AllowedAt(allowed, s, acts, k)
  }

  ghost predicate AllowedAt(allowed: Allowed, s: State, acts: seq<Action>, k: nat)
    requires Legal(s, acts) && k < |acts|
  {
    allowed(S.At(s, acts, k), acts[k])
  }

  ghost predicate Leads(allowed: Allowed, s: State, t: State) {
    exists acts :: Run(allowed, s, acts, t)
  }

  lemma LeadsNowhere(allowed: Allowed, s: State)
    ensures Leads(allowed, s, s)
  {
    assert Run(allowed, s, [], s);
  }

  lemma RunExtends(allowed: Allowed, s: State, acts: seq<Action>, t: State, a: Action)
    requires Run(allowed, s, acts, t) && Enabled(t, a) && allowed(t, a)
    ensures Run(allowed, s, acts + [a], Apply(t, a))
  {
    var more := acts + [a];
    assert more[..|acts|] == acts;
    forall k: nat | k < |more|
      ensures AllowedAt(allowed, s, more, k)
    {
      if k < |acts| {
        assert more[..k] == acts[..k];
        assert AllowedAt(allowed, s, acts, k);
      }
    }
  }

  lemma LeadsStep(allowed: Allowed, s: State, t: State, a: Action)
    requires Leads(allowed, s, t) && Enabled(t, a) && allowed(t, a)
    ensures Leads(allowed, s, Apply(t, a))
  {
    var acts :| Run(allowed, s, acts, t);
    RunExtends(allowed, s, acts, t, a);
  }

  lemma RunPrefix(allowed: Allowed, s: State, acts: seq<Action>, t: State)
    requires Run(allowed, s, acts, t) && acts != []
    ensures var front := acts[..|acts| - 1];
            && Legal(s, front) && Run(allowed, s, front, Replay(s, front))
            && Enabled(Replay(s, front), acts[|front|]) && allowed(Replay(s, front), acts[|front|])
            && t == Apply(Replay(s, front), acts[|front|])
  {
    var front := acts[..|acts| - 1];
    forall k: nat | k < |front|
      ensures AllowedAt(allowed, s, front, k)
    {
      assert front[..k] == acts[..k];
      assert AllowedAt(allowed, s, acts, k);
    }
    assert AllowedAt(allowed, s, acts, |front|);
  }

  lemma {:induction false} LeadsOn(allowed: Allowed, s: State, t: State, acts: seq<Action>, u: State)
    requires Leads(allowed, s, t) && Run(allowed, t, acts, u)
    ensures Leads(allowed, s, u)
    decreases |acts|
  {
    if acts != [] {
      var front := acts[..|acts| - 1];
      RunPrefix(allowed, t, acts, u);
      LeadsOn(allowed, s, t, front, Replay(t, front));
      LeadsStep(allowed, s, Replay(t, front), acts[|front|]);
    }
  }

  lemma LeadsTrans(allowed: Allowed, s: State, t: State, u: State)
    requires Leads(allowed, s, t) && Leads(allowed, t, u)
    ensures Leads(allowed, s, u)
  {
    var acts :| Run(allowed, t, acts, u);
    LeadsOn(allowed, s, t, acts, u);
  }

  lemma LeadsKeepsInv(allowed: Allowed, s: State, t: State)
    requires Leads(allowed, s, t) && Inv(s)
    ensures Inv(t)
  {
    var acts :| Run(allowed, s, acts, t);
    RunKeepsInv(s, acts);
  }

  // ---- Work on one node -----------------------------------------------------------------------

  /** What is stored about a node, as opposed to remembered by a pass. */
  function Stored(m: Member): Member {
    m.(local := NO_LOCAL)
  }

  /** From `s` to `t` only `n` has changed. */
  predicate SameElse(s: State, t: State, n: Name) {
    && t.members.Keys == s.members.Keys && t.pools == s.pools && n in s.members
    && forall k | k in s.members && k != n :: Stored(t.members[k]) == Stored(s.members[k])
  }

  /** `t` can be reached from `s` by work on `n` alone, which is then `m`. */
  ghost predicate Reached(allowed: Allowed, s: State, t: State, n: Name, m: Member) {
    Leads(allowed, s, t) && SameElse(s, t, n) && t.members[n] == m
  }

  lemma StepOn(allowed: Allowed, s: State, t: State, n: Name, m: Member, op: Op)
    requires Reached(allowed, s, t, n, m) && Guard(t.pass, m, op) && (m.local.own.Some? ==> m.bn.Some?)
    requires allowed(t, On(n, op))
    ensures Enabled(t, On(n, op))
    ensures var t' := Apply(t, On(n, op));
            Reached(allowed, s, t', n, Effect(t.pass, m, op)) && t'.pass == PassAfter(t.pass, m, op)
  {
    LeadsStep(allowed, s, t, On(n, op));
  }

  /** Every node `p` owns is selected by it and desires `image`. */
  predicate InSync(s: State, p: Pool, image: Ref) {
    forall n | n in s.members && s.members[n].bn.Some? && s.members[n].bn.value.owner == Some(p) ::
      && s.members[n].bn.value.desired == image
      && s.members[n].node.Some? && p in s.members[n].node.value.selectedBy
  }

  predicate LiveAndIdle(s: State, p: Pool) {
    s.pass.Idle? && p in s.pools && s.pools[p].Live?
  }

  lemma Opens(allowed: Allowed, s: State, p: Pool, image: Ref, n: Name) returns (t: State)
    requires LiveAndIdle(s, p) && image.Digested? && n in s.members && allowed(s, Begin(p, image))
    ensures Reached(allowed, s, t, n, s.members[n].(local := Listed(p, false, s.members[n])))
    ensures t == Apply(s, Begin(p, image)) && t.pass == Busy(p, image, Syncing, 0, 0)
  {
    LeadsNowhere(allowed, s);
    LeadsStep(allowed, s, s, Begin(p, image));
    t := Apply(s, Begin(p, image));
  }

  lemma Rolls(allowed: Allowed, s: State, p: Pool, image: Ref, n: Name) returns (t: State)
    requires LiveAndIdle(s, p) && image.Digested? && n in s.members && allowed(s, Begin(p, image))
    requires InSync(s, p, image) && forall u :: allowed(u, Roll)
    ensures Reached(allowed, s, t, n, s.members[n].(local := Listed(p, false, s.members[n])))
    ensures t.pass == Busy(p, image, Rolling, 0, 0)
    ensures Occupied(t) == Slots(s, p)
  {
    var b := Opens(allowed, s, p, image, n);
    assert Enabled(b, Roll);
    LeadsStep(allowed, s, b, Roll);
    t := Apply(b, Roll);
    forall k
      ensures k in Occupied(t) <==> k in Slots(s, p)
    {
    }
  }

  lemma Closes(allowed: Allowed, s: State, t: State, n: Name, m: Member) returns (u: State)
    requires Reached(allowed, s, t, n, m) && t.pass.Busy? && forall u :: allowed(u, End)
    ensures Reached(allowed, s, u, n, Stored(m)) && u.pass.Idle?
  {
    LeadsStep(allowed, s, t, End);
    u := Apply(t, End);
  }

  // ---- Retargeting a pool -----------------------------------------------------------------------

  /** Every node `p` owns is selected by it. */
  predicate AllSelected(s: State, p: Pool) {
    forall n | n in s.members && OwnedBy(s.members[n], p) ::
      s.members[n].node.Some? && p in s.members[n].node.value.selectedBy
  }

  function Aimed(m: Member, p: Pool, image: Ref): Member {
    if OwnedBy(m, p) && m.bn.value.desired != image
    then m.(bn := Some(m.bn.value.(desired := image, approved := false)))
    else m
  }

  function Listing(m: Member, p: Pool): Member {
    m.(local := Listed(p, false, m))
  }

  /** A pass of `p` has synced all but the nodes in `todo`. */
  predicate PartlySynced(s: State, t: State, p: Pool, image: Ref, todo: set<Name>) {
    && t.pass == Busy(p, image, Syncing, 0, 0) && t.pools == s.pools && t.members.Keys == s.members.Keys
    && forall n | n in s.members ::
         if n in todo then
           t.members[n] == Listing(s.members[n], p) && OwnedBy(s.members[n], p) && s.members[n].bn.value.desired != image
         else t.members[n] == Listing(Aimed(s.members[n], p, image), p)
  }

  lemma {:induction false} SyncRest(s: State, t: State, p: Pool, image: Ref, todo: set<Name>) returns (u: State)
    requires Leads(Anything(), s, t) && AllSelected(s, p) && todo <= s.members.Keys
    requires PartlySynced(s, t, p, image, todo)
    ensures Leads(Anything(), s, u) && PartlySynced(s, u, p, image, {})
    decreases todo
  {
    u := t;
    if todo != {} {
      var n :| n in todo;
      var m := s.members[n];
      assert t.members[n] == Listing(m, p);
      LeadsStep(Anything(), s, t, On(n, Sync));
      var t' := Apply(t, On(n, Sync));
      assert t'.members[n] == Listing(Aimed(m, p, image), p);
      assert PartlySynced(s, t', p, image, todo - {n});
      u := SyncRest(s, t', p, image, todo - {n});
    }
  }

  /** A pass may retarget the whole pool and end. */
  lemma RetargetAll(s: State, p: Pool, image: Ref) returns (u: State)
    requires LiveAndIdle(s, p) && image.Digested? && AllSelected(s, p)
    ensures Leads(Anything(), s, u) && LiveAndIdle(u, p) && InSync(u, p, image) && u.members.Keys == s.members.Keys
    ensures forall n | n in s.members :: u.members[n] == Stored(Aimed(s.members[n], p, image))
  {
    var any := Anything();
    LeadsNowhere(any, s);
    LeadsStep(any, s, s, Begin(p, image));
    var t := Apply(s, Begin(p, image));
    var todo := set n | n in s.members && OwnedBy(s.members[n], p) && s.members[n].bn.value.desired != image;
    assert PartlySynced(s, t, p, image, todo);
    var v := SyncRest(s, t, p, image, todo);
    LeadsStep(any, s, v, End);
    u := Apply(v, End);
    EndsAimed(s, v, p, image);
  }

  lemma EndsAimed(s: State, v: State, p: Pool, image: Ref)
    requires AllSelected(s, p) && PartlySynced(s, v, p, image, {})
    ensures var u := Apply(v, End);
            && u.pass.Idle? && u.pools == s.pools && u.members.Keys == s.members.Keys && InSync(u, p, image)
            && forall n | n in s.members :: u.members[n] == Stored(Aimed(s.members[n], p, image))
  {
  }
}
