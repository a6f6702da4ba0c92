/** The daemon's status cache and its one-slot wake-up channel. The watcher loop, the forwarding of
    events into the work queue and the reconcile loop run concurrently; each method is one of their
    atomic steps, and `Valid` holds between any two, in whatever order they come. */
module StatusCache {
  import opened Types

  /** How far the one reconcile worker has come: it waits for a request, has taken one, has fetched the
      BootcNode, is reading the host itself, or goes on with what it read. */
  datatype Reader = Away | Dequeued | Fetched | Reading | Working

  datatype Event<V> =
    | Starts
    | Refreshes(seen: V)
    | Sends
    | Forwards
    | WakesOtherwise
    | Goes
    | Appears
    | Dequeues
    | Fetches(fails: bool)
    | Looks
    | ReadsHost(found: Option<V>)
    | Finishes(reboots: bool, failed: bool)

  class Watcher<V(==)> {
    var cached: Option<V>
    var started: bool
    /** What the last reconcile read. */
    var lastRead: Option<V>
    /** The watcher loop found a change and is about to send. */
    var sending: bool
    /** The channel's one slot. */
    var slot: bool
    /** The reconcile request in the work queue, which holds it at most once. */
    var queued: bool
    var reader: Reader
    /** There is no BootcNode for this node. */
    var absent: bool
    /** The daemon has told its host to reboot. */
    var rebootIssued: bool

    /** Somebody will come and, unless it turns back, read the cache. */
    predicate WakeUpDue()
      reads this
    {
      sending || slot || queued || reader == Dequeued || reader == Fetched
    }

    /** A reconcile turns back before it reads the cache. */
    predicate TurnsBack()
      reads this
    {
      absent || rebootIssued
    }

    /** No lost wake-up: a cache that differs from what was last read has a wake-up due, or reconciles
        turn back. */
    ghost predicate Valid()
      reads this
    {
      && (cached != lastRead ==> WakeUpDue() || TurnsBack())
      && (cached.None? ==> lastRead.None?)
      && (!started ==> cached == lastRead && !sending)
    }

    constructor (without: bool)
      ensures Valid() && cached.None? && lastRead.None? && !started && !WakeUpDue() && reader == Away
      ensures absent == without && !rebootIssued
    {
      cached, started, lastRead, sending, slot, queued, reader := None, false, None, false, false, false, Away;
      absent, rebootIssued := without, false;
    }

    method Start()
      requires Valid()
      modifies `started
      ensures Valid() && started
    {
      started := true;
    }

    /** The watcher reads the host and updates the cache. */
    method Refresh(seen: V)
      requires Valid() && started && !sending
      modifies `cached, `sending
      ensures Valid() && cached == Some(seen) && sending == (old(cached) != Some(seen))
    {
      var changed := cached != Some(seen);
      cached := Some(seen);
      sending := changed;
    }

    /** A send that never blocks: if the slot is full it is dropped. */
    method Send()
      requires Valid() && sending
      modifies `sending, `slot
      ensures Valid() && slot && !sending
    {
      slot := true;
      sending := false;
    }

    method Forward()
      requires Valid() && slot
      modifies `slot, `queued
      ensures Valid() && !slot && queued
    {
      slot, queued := false, true;
    }

    /** Any other event for this node. */
    method WakeOtherwise()
      requires Valid()
      modifies `queued
      ensures Valid() && queued
    {
      queued := true;
    }

    /** The BootcNode is deleted. */
    method Go()
      requires Valid()
      modifies `absent
      ensures Valid() && absent
    {
      absent := true;
    }

    /** The BootcNode is created, which is an event for this node. */
    method Appear()
      requires Valid()
      modifies `absent, `queued
      ensures Valid() && !absent && WakeUpDue()
    {
      absent, queued := false, true;
    }

    method Dequeue()
      requires Valid() && queued && reader == Away
      modifies `queued, `reader
      ensures Valid() && !queued && reader == Dequeued
    {
      queued, reader := false, Dequeued;
    }

    /** A reconcile goes on to the cache only with a BootcNode and without a reboot under way; if the
        API call fails it is queued again, otherwise it is over. */
    method Fetch(fails: bool)
      requires Valid() && reader == Dequeued
      modifies `queued, `reader
      ensures Valid()
      ensures reader == Fetched <==> !fails && !TurnsBack()
      ensures reader != Fetched ==> reader == Away
      ensures queued == (old(queued) || (fails && !rebootIssued))
    {
      if rebootIssued {
        reader := Away;
      } else if fails {
        reader, queued := Away, true;
      } else if absent {
        reader := Away;
      } else {
        reader := Fetched;
      }
    }

    /** A reconcile looks at the cache; without a running watcher or a cached status it goes on to
        read the host. */
    method Look()
      requires Valid() && reader == Fetched
      modifies `lastRead, `reader
      ensures Valid()
      ensures if started && cached.Some? then lastRead == cached && reader == Working
              else lastRead == old(lastRead) && reader == Reading
    {
      if started && cached.Some? {
        lastRead, reader := cached, Working;
      } else {
        reader := Reading;
      }
    }

    /** The host answers the reconcile, or does not. By now the watcher may have been faster. */
    method ReadHost(found: Option<V>)
      requires Valid() && reader == Reading
      modifies `cached, `lastRead, `reader
      ensures Valid() && reader == Working
      ensures found.Some? ==> cached == found && lastRead == found
      ensures found.None? ==> cached == old(cached) && lastRead == old(lastRead)
    {
      if found.Some? {
        cached, lastRead := found, found;
      }
      reader := Working;
    }

    /** The reconcile ends, perhaps with a reboot; after an error it is queued again. */
    method Finish(reboots: bool, failed: bool)
      requires Valid() && reader == Working
      modifies `reader, `rebootIssued, `queued
      ensures Valid() && reader == Away
      ensures rebootIssued == (old(rebootIssued) || reboots) && queued == (old(queued) || failed)
    {
      reader, rebootIssued, queued := Away, rebootIssued || reboots, queued || failed;
    }

    /** Any steps in any order, as far as each program allows them. */
    method Interleave(script: seq<Event<V>>)
      requires Valid()
      modifies this
      ensures Valid()
      ensures cached != lastRead && !absent && !rebootIssued ==> WakeUpDue()
    {
      for k := 0 to |script|
        invariant Valid()
      {
        match script[k]
        case Starts => Start();
        case Refreshes(seen) => if started && !sending { Refresh(seen); }
        case Sends => if sending { Send(); }
        case Forwards => if slot { Forward(); }
        case WakesOtherwise => WakeOtherwise();
        case Goes => Go();
        case Appears => if absent { Appear(); }
        case Dequeues => if queued && reader == Away { Dequeue(); }
        case Fetches(fails) => if reader == Dequeued { Fetch(fails); }
        case Looks => if reader == Fetched { Look(); }
        case ReadsHost(found) => if reader == Reading { ReadHost(found); }
        case Finishes(reboots, failed) => if reader == Working { Finish(reboots, failed); }
      }
    }

    /** One reconcile that does not turn back. */
    method ReadOnce()
      requires Valid() && started && cached.Some? && !TurnsBack() && queued && reader == Away
      modifies `queued, `reader, `lastRead, `rebootIssued
      ensures Valid() && !queued && reader == Away && lastRead == cached && !rebootIssued
    {
      Dequeue();
      Fetch(false);
      Look();
      Finish(false, false);
    }

    /** Once the watcher rests, the wake-ups run out only when the last reconcile has read what is
        cached, as long as reconciles do not turn back. */
    method Settle()
      requires Valid() && started && cached.Some? && reader == Away && !TurnsBack()
      modifies `sending, `slot, `queued, `reader, `lastRead, `rebootIssued
      ensures Valid() && !WakeUpDue() && lastRead == cached && cached == old(cached)
    {
      if queued { ReadOnce(); }
      if sending { Send(); }
      if slot { Forward(); ReadOnce(); }
    }

    /** If they do turn back, the same wake-ups run out unread: any other status the watcher then sees
        is cached, never read, and nothing is due. */
    method LoseWakeUp(seen: V)
      requires Valid() && started && !sending && reader == Away && TurnsBack()
      modifies `cached, `sending, `slot, `queued, `reader
      ensures Valid() && !WakeUpDue() && reader == Away && cached == Some(seen) && lastRead == old(lastRead)
    {
      Refresh(seen);
      if sending { Send(); }
      if slot { Forward(); }
      if queued { Dequeue(); Fetch(false); }
    }
  }

  /** An input: the daemon starts before its BootcNode exists. What it sees first is not read, until the
      BootcNode appears. */
  method UnreadAtStartUp<V(==)>(seen: V) returns (w: Watcher<V>)
    ensures fresh(w) && w.Valid()
    ensures w.cached == Some(seen) && w.lastRead.None? && !w.WakeUpDue() && w.absent && !w.rebootIssued
  {
    w := new Watcher<V>(true);
    w.Start();
    w.LoseWakeUp(seen);
  }
}
