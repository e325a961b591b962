/** The dispatch queue: a delay queue whose entries are found again through an index of keys by handle. */
module PollQueue {
  import opened Prelude
  import opened Addresses
  import opened Tcp
  import opened Time
  import opened ConnectionSpec

  type Key = nat

  datatype Entry = Entry(h: Handle, deadline: nat)

  datatype Expiry = NothingQueued | NothingDue | Due(h: Handle)

  /** The library's delay queue. A key is valid from the insertion that returned it until its entry is removed
      or expires; afterwards the queue may hand it out again. */
  class DelayQueue {
    var entries: map<Key, Entry>

    constructor ()
      ensures entries == map[]
    {
      entries := map[];
    }

    method InsertAt(h: Handle, deadline: nat) returns (k: Key)
      modifies this
      ensures k !in old(entries) && entries == old(entries)[k := Entry(h, deadline)]
    {
      UnusedExists(entries.Keys);
      k :| k !in entries;
      entries := entries[k := Entry(h, deadline)];
    }

    method ResetAt(k: Key, deadline: nat)
      requires k in entries
      modifies this
      ensures entries == old(entries)[k := Entry(old(entries)[k].h, deadline)]
    {
      entries := entries[k := entries[k].(deadline := deadline)];
    }

    method Remove(k: Key)
      requires k in entries
      modifies this
      ensures entries == old(entries) - {k}
    {
      entries := entries - {k};
    }

    /** Takes out some entry that is due. */
    method PollExpired(now: nat) returns (r: Expiry, ghost k: Key)
      modifies this
      ensures r.NothingQueued? <==> old(entries) == map[]
      ensures r.NothingDue? ==> forall j :: j in entries ==> entries[j].deadline > now
      ensures !r.Due? ==> entries == old(entries)
      ensures r.Due? ==>
        && k in old(entries) && old(entries)[k].h == r.h && old(entries)[k].deadline <= now
        && entries == old(entries) - {k}
    {
      k := 0;
      if entries == map[] {
        return NothingQueued, 0;
      }
      if j :| j in entries && entries[j].deadline <= now {
        r, k := Due(entries[j].h), j;
        entries := entries - {j};
      } else {
        r := NothingDue;
      }
    }
  }

  /** The delay queue with its index. */
  class Delays {
    const queue: DelayQueue
    var keys: map<Handle, Key>

    /** The index and the queue are in bijection. */
    ghost predicate Valid()
      reads this, queue
    {
      && (forall h :: h in keys ==> keys[h] in queue.entries && queue.entries[keys[h]].h == h)
      && (forall k :: k in queue.entries ==> queue.entries[k].h in keys && keys[queue.entries[k].h] == k)
    }

    /** What the pair stands for: a table of deadlines. */
    ghost function View(): Queue
      requires Valid()
      reads this, queue
    {
      map h | h in keys :: queue.entries[keys[h]].deadline
    }

    constructor ()
      ensures Valid() && View() == map[] && fresh(queue)
    {
      queue := new DelayQueue();
      keys := map[];
    }

    lemma EmptyTogether()
      requires Valid()
      ensures queue.entries == map[] <==> View() == map[]
    {
      if k :| k in queue.entries {
        assert queue.entries[k].h in View();
      }
      if h :| h in View() {
        assert keys[h] in queue.entries;
      }
    }

    /** The `unwrap` on the index cannot fail: the entry that expired is indexed. */
    method Next(now: nat) returns (r: Expiry)
      requires Valid()
      modifies this, queue
      ensures Valid()
      ensures r.NothingQueued? <==> old(View()) == map[]
      ensures r.NothingDue? ==> forall h :: h in View() ==> View()[h] > now
      ensures !r.Due? ==> View() == old(View())
      ensures r.Due? ==> r.h in old(View()) && old(View())[r.h] <= now && View() == old(View()) - {r.h}
    {
      EmptyTogether();
      ghost var k;
      r, k := queue.PollExpired(now);
      if r.Due? {
        assert r.h in keys;
        keys := keys - {r.h};
      }
    }

    method Insert(h: Handle, deadline: nat)
      requires Valid()
      modifies this, queue
      ensures Valid() && View() == old(View())[h := deadline]
    {
      if h in keys {
        queue.ResetAt(keys[h], deadline);
      } else {
        var k := queue.InsertAt(h, deadline);
        keys := keys[h := k];
      }
    }

    method ContainsKey(h: Handle) returns (found: bool)
      requires Valid()
      ensures found <==> h in View()
    {
      found := h in keys;
    }

    method Remove(h: Handle)
      requires Valid()
      modifies this, queue
      ensures Valid() && View() == old(View()) - {h}
    {
      if h in keys {
        var k := keys[h];
        keys := keys - {h};
        queue.Remove(k);
      }
    }
  }

  class DispatchQueue {
    const clock: Clock
    const delayed: Delays

    ghost predicate Valid()
      reads delayed, delayed.queue
    {
      delayed.Valid()
    }

    ghost function View(): Queue
      requires Valid()
      reads delayed, delayed.queue
    {
      delayed.View()
    }

    constructor (clock: Clock)
      ensures Valid() && View() == map[] && this.clock == clock && fresh(delayed) && fresh(delayed.queue)
    {
      this.clock := clock;
      delayed := new Delays();
    }

    method Send(h: Handle, at: PollAt)
      requires Valid()
      modifies delayed, delayed.queue
      ensures Valid() && View() == QueueSend(clock, old(View()), h, at)
    {
      var instant: nat;
      match at {
        case Now => instant := clock.Origin();
        case Time(millis) => instant := clock.Resolve(millis);
        case Ingress => return;
      }
      delayed.Insert(h, instant);
    }

    /** Polls for a handle that is due; with nothing queued this waits like with nothing due. */
    method Poll(now: nat) returns (r: Option<Handle>)
      requires Valid()
      modifies delayed, delayed.queue
      ensures Valid()
      ensures r.None? ==> View() == old(View()) && forall h :: h in View() ==> View()[h] > now
      ensures r.Some? ==> r.value in old(View()) && old(View())[r.value] <= now && View() == old(View()) - {r.value}
    {
      var n := delayed.Next(now);
      match n
      case Due(h) => r := Some(h);
      case _ => r := None;
    }

    method Remove(h: Handle)
      requires Valid()
      modifies delayed, delayed.queue
      ensures Valid() && View() == old(View()) - {h}
    {
      delayed.Remove(h);
    }

    method Contains(h: Handle) returns (found: bool)
      requires Valid()
      ensures found <==> h in View()
    {
      found := delayed.ContainsKey(h);
    }
  }
}
