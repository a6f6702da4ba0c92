/** The daemon's stage operation: an object shared by the reconcile loop and the goroutines that run
    `bootc switch`. Each method is one critical section or one step of a goroutine, and they may come
    in any order their own program allows; `Valid` holds between any two. */
module StageOperation {
  import opened Types

  const MAX_EXPONENT := 7
  const BACKOFF_MIN := 5

  /** Where a goroutine is: waiting for the run lock, inside the executor, delivering its completion
      (still holding the lock), or gone. */
  datatype Phase = Waiting | Staging | Delivering | Exited

  datatype Run = Run(image: string, cancelled: bool, phase: Phase)

  /** Uncancelled and unfinished. */
  predicate Live(r: Run) {
    !r.cancelled && (r.phase == Waiting || r.phase == Staging)
  }

  function Order(p: Phase): nat {
    match p
    case Waiting => 0
    case Staging => 1
    case Delivering => 2
    case Exited => 3
  }

  /** What the goroutines may make of a run: they move it on, but neither cancel it nor change its image. */
  predicate MovesOn(r: Run, r': Run) {
    r'.image == r.image && r'.cancelled == r.cancelled && Order(r.phase) <= Order(r'.phase)
  }

  predicate AllMoveOn(a: seq<Run>, b: seq<Run>) {
    |b| == |a| && forall i | 0 <= i < |a| :: MovesOn(a[i], b[i])
  }

  /** A live operation works on `image`. */
  predicate WorksOn(runs: seq<Run>, image: string) {
    exists k | 0 <= k < |runs| :: Live(runs[k]) && runs[k].image == image
  }

  function Pow2(n: nat): (r: nat)
    ensures r > 0
  {
    if n == 0 then 1 else 2 * Pow2(n - 1)
  }

  lemma {:induction false} Pow2Grows(m: nat, n: nat)
    requires m <= n
    ensures Pow2(m) <= Pow2(n)
    decreases n
  {
    if m < n { Pow2Grows(m, n - 1); }
  }

  datatype Event = Enter(id: nat) | Finish(id: nat, error: Option<string>) | Deliver(id: nat)

  datatype Decision = OnTarget | RetryAfter(seconds: nat) | Started | InFlight | AlreadyStaged

  class StageOp {
    var image: string
    var cancel: Option<nat>
    var err: Option<string>
    var retries: nat
    /** Who holds the run lock. */
    var holder: Option<nat>
    var runs: seq<Run>
    /** The reconcile loop has taken an error and not yet computed its backoff. */
    ghost var failing: bool

    ghost predicate Valid()
      reads this
    {
      && retries <= MAX_EXPONENT && (failing ==> retries > 0)
      && (cancel.None? ==> image == "")
      && (cancel.Some? ==> cancel.value < |runs| && Live(runs[cancel.value]) && runs[cancel.value].image == image)
      && (forall i | 0 <= i < |runs| && Live(runs[i]) :: cancel == Some(i))
      && (forall i | 0 <= i < |runs| :: runs[i].phase in {Staging, Delivering} <==> holder == Some(i))
      && (holder.Some? ==> holder.value < |runs|)
    }

    constructor ()
      ensures Valid() && !failing && runs == [] && cancel.None? && err.None? && retries == 0
    {
      image, cancel, err, retries, holder, runs, failing := "", None, None, 0, None, [], false;
    }

    /** At most one process runs and at most one operation is live, and the image in flight, if any,
        is that operation's. */
    lemma AtMostOne(i: nat, j: nat)
      requires Valid() && i < |runs| && j < |runs|
      ensures runs[i].phase == Staging && runs[j].phase == Staging ==> i == j
      ensures Live(runs[i]) && Live(runs[j]) ==> i == j
      ensures image != "" && Live(runs[i]) ==> runs[i].image == image
      ensures image != "" ==> exists k | 0 <= k < |runs| :: Live(runs[k]) && runs[k].image == image
    {
    }

    // ---- The reconcile loop -------------------------------------------------------------------

    method TakeErr() returns (e: Option<string>)
      requires Valid() && !failing
      modifies `err, `retries, `failing
      ensures Valid() && e == old(err) && err.None?
      ensures retries == if e.Some? && old(retries) < MAX_EXPONENT then old(retries) + 1 else old(retries)
      ensures failing == e.Some?
    {
      e := err;
      err := None;
      if e.Some? && retries < MAX_EXPONENT {
        retries := retries + 1;
      }
      failing := e.Some?;
    }

    method Backoff() returns (seconds: nat)
      requires Valid() && failing
      modifies `failing
      ensures Valid() && !failing
      ensures 1 <= retries <= MAX_EXPONENT && seconds == BACKOFF_MIN * Pow2(retries - 1)
      ensures 5 <= seconds <= 320
    {
      seconds := BACKOFF_MIN * Pow2(retries - 1);
      Pow2Grows(retries - 1, MAX_EXPONENT - 1);
      assert Pow2(6) == 64;
      failing := false;
    }

    /** To wait for an image in flight is to wait for a live operation on it. */
    method IsInFlight(desired: string) returns (b: bool)
      requires Valid() && desired != ""
      ensures b <==> WorksOn(runs, desired)
    {
      b := image == desired;
      assert b ==> cancel.Some? && Live(runs[cancel.value]) && runs[cancel.value].image == desired;
    }

    /** Cancels the operation in flight, if any, and starts a new one. */
    method Acquire(desired: string) returns (id: nat)
      requires Valid() && !failing && desired != ""
      modifies `image, `cancel, `err, `retries, `runs
      ensures Valid() && id == |old(runs)|
      ensures image == desired && cancel == Some(id) && err.None?
      ensures retries == if old(cancel).Some? then 0 else old(retries)
      ensures |runs| == id + 1 && runs[id] == Run(desired, false, Waiting)
      ensures forall i | 0 <= i < id ::
                runs[i] == if old(cancel) == Some(i) then old(runs[i]).(cancelled := true) else old(runs[i])
    {
      if cancel.Some? {
        runs := runs[cancel.value := runs[cancel.value].(cancelled := true)];
        retries := 0;
      }
      id := |runs|;
      runs := runs + [Run(desired, false, Waiting)];
      image, cancel, err := desired, Some(id), None;
    }

    method Reset()
      requires Valid() && !failing
      modifies `retries
      ensures Valid() && retries == 0
    {
      retries := 0;
    }

    // ---- The goroutines -----------------------------------------------------------------------

    /** A goroutine gets the run lock; if it was cancelled meanwhile it leaves without starting. */
    method EnterRun(id: nat)
      requires Valid() && id < |runs| && runs[id].phase == Waiting && holder.None?
      modifies `runs, `holder
      ensures Valid()
      ensures runs == old(runs)[id := old(runs)[id].(phase := if old(runs)[id].cancelled then Exited else Staging)]
    {
      if runs[id].cancelled {
        runs := runs[id := runs[id].(phase := Exited)];
      } else {
        runs := runs[id := runs[id].(phase := Staging)];
        holder := Some(id);
      }
    }

    /** The executor returns. A cancelled run changes nothing but itself; a live one leaves its error
        and clears the way. */
    method FinishRun(id: nat, error: Option<string>)
      requires Valid() && id < |runs| && runs[id].phase == Staging
      modifies `runs, `holder, `image, `cancel, `err
      ensures Valid()
      ensures old(runs)[id].cancelled ==> image == old(image) && cancel == old(cancel) && err == old(err)
      ensures !old(runs)[id].cancelled ==>
                image == "" && cancel.None? && err == if error.Some? then error else old(err)
      ensures runs == old(runs)[id := old(runs)[id].(phase := if old(runs)[id].cancelled then Exited else Delivering)]
    {
      if runs[id].cancelled {
        runs := runs[id := runs[id].(phase := Exited)];
        holder := None;
        return;
      }
      if error.Some? {
        err := error;
      }
      image, cancel := "", None;
      runs := runs[id := runs[id].(phase := Delivering)];
    }

    method DeliverRun(id: nat)
      requires Valid() && id < |runs| && runs[id].phase == Delivering
      modifies `runs, `holder
      ensures Valid() && holder.None? && runs == old(runs)[id := old(runs)[id].(phase := Exited)]
    {
      runs := runs[id := runs[id].(phase := Exited)];
      holder := None;
    }

    /** Any steps of the goroutines, in any order. They never touch the retry count. */
    method Goroutines(script: seq<Event>)
      requires Valid()
      modifies `runs, `holder, `image, `cancel, `err
      ensures Valid() && AllMoveOn(old(runs), runs) && (script == [] ==> runs == old(runs) && err == old(err))
    {
      for k := 0 to |script|
        invariant Valid() && AllMoveOn(old(runs), runs)
        invariant k == 0 ==> runs == old(runs) && err == old(err)
      {
        var id := script[k].id;
        if id < |runs| {
          match script[k]
          case Enter(_) => if runs[id].phase == Waiting && holder.None? { EnterRun(id); }
          case Finish(_, error) => if runs[id].phase == Staging { FinishRun(id, error); }
          case Deliver(_) => if runs[id].phase == Delivering { DeliverRun(id); }
        }
      }
    }

    /** The part of a reconcile that drives staging; goroutines run between its critical sections.
        Whatever they do, after it the wanted image is staged, in flight, or due for a retry within
        320 seconds. An operation on the wanted image is never cancelled, and one is added only if there
        was none: `asked` is what was under way when the reconcile asked. */
    method Drive(desired: string, booted: bool, staged: bool, scripts: seq<seq<Event>>)
      returns (d: Decision, ghost asked: seq<Run>)
      requires Valid() && !failing && desired != "" && |scripts| == 2
      modifies this
      ensures Valid() && !failing
      ensures d.OnTarget? <==> booted
      ensures d.OnTarget? ==> retries == 0
      ensures !booted ==> (d.RetryAfter? <==> old(err).Some?)
      ensures d.RetryAfter? ==>
                5 <= d.seconds <= 320 && 1 <= retries <= MAX_EXPONENT && d.seconds == BACKOFF_MIN * Pow2(retries - 1)
      ensures d.RetryAfter? ==> retries == if old(retries) < MAX_EXPONENT then old(retries) + 1 else MAX_EXPONENT
      ensures d.AlreadyStaged? ==> staged
      ensures d.Started? || d.InFlight? ==> !staged && WorksOn(runs, desired)
      ensures d.InFlight? || d.AlreadyStaged? ==> retries == old(retries)
      ensures d.Started? ==> err.None? && (retries == old(retries) || retries == 0)
      ensures AllMoveOn(old(runs), asked) && (scripts[0] == [] ==> asked == old(runs))
      ensures !d.Started? ==> runs == asked
      ensures d.Started? <==> !booted && old(err).None? && !staged && !WorksOn(asked, desired)
      ensures d.Started? ==> |runs| == |old(runs)| + 1 && runs[|old(runs)|] == Run(desired, false, Waiting)
      ensures forall i | 0 <= i < |old(runs)| ::
                && i < |runs| && runs[i].image == old(runs)[i].image
                && (runs[i].cancelled && !old(runs)[i].cancelled ==> d.Started? && old(runs)[i].image != desired)
    {
      asked := runs;
      if booted {
        Reset();
        return OnTarget, asked;
      }
      var e := TakeErr();
      Goroutines(scripts[0]);
      asked := runs;
      if e.Some? {
        var seconds := Backoff();
        return RetryAfter(seconds), asked;
      }
      if staged {
        return AlreadyStaged, asked;
      }
      var inFlight := IsInFlight(desired);
      if inFlight {
        return InFlight, asked;
      }
      Goroutines(scripts[1]);
      ghost var late := runs;
      NoneAppears(asked, late, desired);
      assert cancel.Some? ==> runs[cancel.value].image != desired;
      var id := Acquire(desired);
      return Started, asked;
    }

    /** Moving on makes no operation live. */
    static lemma NoneAppears(a: seq<Run>, b: seq<Run>, image: string)
      requires AllMoveOn(a, b) && !WorksOn(a, image)
      ensures !WorksOn(b, image)
    {
      if k :| 0 <= k < |b| && Live(b[k]) && b[k].image == image {
        assert MovesOn(a[k], b[k]) && Live(a[k]);
      }
    }
  }
}
