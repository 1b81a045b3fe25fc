/** The timer list of disastrOS_timer.c: Item<P.Timer> blocks of a pool, linked in order of their awakening time. */
module TimerLists {
  import opened Constants
  import opened Sequences
  import opened LinkedLists
  import opened BlockStores
  import P = Processes

  class TimerList {
    const store: BlockStore<P.Timer>
    const list: ListHead<P.Timer>

    ghost function Footprint(): set<object>
      reads store`lists, store.pool`freeList
    {
      store.Footprint()
    }

    ghost predicate Valid()
      reads store, store.pool, store.pool.freeList, store.memory`prev, store.memory`next, store.lists
    {
      store.Valid() && list in store.lists
    }

    /** The timers, earliest first. */
    ghost function Timers(): seq<P.Timer>
      reads store, store.pool, store.pool.freeList, store.memory, store.lists
      requires Valid()
    {
      Values(list.items)
    }

    /** How many more there can be. */
    ghost function Room(): nat
      reads store.pool`free
    {
      |store.pool.free|
    }

    /** Timer_init and TimerList_init. */
    constructor (buffer: int, itemSize: int)
      requires itemSize > 0
      ensures Valid() && fresh(Footprint()) && Timers() == [] && Room() == MAX_NUM_PROCESSES
    {
      hide BlockStore.Valid, ListHead.Valid, Upto;
      store := new BlockStore(buffer, itemSize, P.Timer(0, 0));
      list := new ListHead();
      new;
      store.AddList(list);
      UptoFacts(MAX_NUM_PROCESSES);
    }

    /** Where the scan is after `k` items. */
    ghost predicate Scanning(aux: Item?<P.Timer>, k: nat)
      reads list
    {
      k <= |list.items| && aux == ItemAt(list.items, k)
    }

    lemma Scanned(k: nat)
      requires Valid() && k < |list.items|
      ensures |list.items| == |Timers()| && list.items[k].value == Timers()[k]
      ensures list.items[k].next == ItemAt(list.items, k + 1) && Cut(list.items, list.items[k]) == k + 1
    {
      hide BlockStore.Valid;
      store.Linked(list, k);
    }

    lemma Starts()
      requires Valid()
      ensures list.first == ItemAt(list.items, 0) && |list.items| == |Timers()|
    {
    }

    /** TimerList_add: null when the pool is empty. */
    method Add(wake: int, pid: nat) returns (added: bool)
      requires Valid()
      modifies Footprint()
      ensures Valid() && Footprint() == old(Footprint()) && added == (old(Room()) > 0)
      ensures !added ==> Timers() == old(Timers()) && Room() == old(Room())
      ensures added ==> Timers() == P.AddTimer(old(Timers()), wake, pid) && Room() == old(Room()) - 1
    {
      hide Valid, Timers, InsertedAt;
      ghost var k, ts := 0, Timers();
      var aux := list.first;
      var previous: Item?<P.Timer> := null;
      Starts();
      while aux != null
        invariant Scanning(aux, k) && |list.items| == |ts| && previous == ItemAt(list.items, k - 1)
        invariant P.InsertionPoint(ts, wake) == k + P.InsertionPoint(ts[k..], wake)
        modifies {}
        decreases |ts| - k
      {
        Scanned(k);
        if wake < aux.value.wake {
          break;
        }
        assert ts[k..][1..] == ts[k + 1..];
        previous := aux;
        aux := aux.next;
        k := k + 1;
      }
      if k > 0 {
        Scanned(k - 1);
      }
      added := AddAfter(previous, k, P.Timer(wake, pid));
    }

    /** TimerItem_alloc and List_insert. */
    method AddAfter(previous: Item?<P.Timer>, ghost k: nat, t: P.Timer) returns (added: bool)
      requires Valid() && (previous == null || previous in list.items) && k == Cut(list.items, previous)
      requires k <= |Timers()|
      modifies Footprint()
      ensures Valid() && Footprint() == old(Footprint()) && added == (old(Room()) > 0)
      ensures !added ==> Timers() == old(Timers()) && Room() == old(Room())
      ensures added ==> Timers() == InsertedAt(old(Timers()), k, t) && Room() == old(Room()) - 1
    {
      hide BlockStore.Valid, Values, InsertedAt, Cut;
      var none := store.Exhausted();
      if none {
        return false;
      }
      store.AddAfter(list, previous, t);
      return true;
    }

    /** TimerList_current: the process of the first timer, if it is due. */
    method Current(time: int) returns (pid: Option<nat>)
      requires Valid()
      ensures pid == if Timers() != [] && time >= Timers()[0].wake then Some(Timers()[0].pid) else None
    {
      Starts();
      if list.first == null {
        return None;
      }
      Scanned(0);
      return if time >= list.first.value.wake then Some(list.first.value.pid) else None;
    }

    /** TimerList_removeCurrent. */
    method RemoveCurrent()
      requires Valid() && Timers() != []
      modifies Footprint()
      ensures Valid() && Footprint() == old(Footprint())
      ensures Timers() == old(Timers())[1..] && Room() == old(Room()) + 1
    {
      hide BlockStore.Valid;
      var t := store.TakeFirst(list);
    }

    /** The cleanup loop of internal_exit: every timer of `pid` leaves the list. */
    method Clean(pid: nat)
      requires Valid()
      modifies Footprint()
      ensures Valid() && Footprint() == old(Footprint())
      ensures Timers() == P.TimersWithout(old(Timers()), pid) && Room() + |Timers()| == old(Room() + |Timers()|)
    {
      hide Valid, Timers, RemovedAt, Cleaned;
      ghost var k, ts := 0, Timers();
      var aux := list.first;
      Starts();
      CleanedEnds(ts, pid);
      while aux != null
        invariant Valid() && Footprint() == old(Footprint()) && Scanning(aux, k) && Timers() == ts
        invariant |list.items| == |ts| && Room() + |ts| == old(Room() + |Timers()|)
        invariant Cleaned(ts, k, pid) == P.TimersWithout(old(Timers()), pid)
        decreases |ts| - k
      {
        Scanned(k);
        CleanedMore(ts, k, pid);
        var timer := aux;
        aux := aux.next;
        if timer.value.pid == pid {
          Remove(timer, k);
          Starts();
          ts := RemovedAt(ts, k);
        } else {
          k := k + 1;
        }
      }
      CleanedEnds(ts, pid);
    }

    method Remove(timer: Item<P.Timer>, ghost k: nat)
      requires Valid() && k < |list.items| && timer == list.items[k]
      modifies Footprint()
      ensures Valid() && Footprint() == old(Footprint()) && k < |old(Timers())| && Room() == old(Room()) + 1
      ensures Timers() == RemovedAt(old(Timers()), k) && list.items == old(RemovedAt(list.items, k))
    {
      hide BlockStore.Valid, RemovedAt;
      store.Remove(list, timer, k);
    }
  }

  /** The list when `k` timers have been looked at and stay: what becomes of it in the end. */
  ghost function Cleaned(ts: seq<P.Timer>, k: nat, pid: nat): seq<P.Timer>
    requires k <= |ts|
  {
    ts[..k] + P.TimersWithout(ts[k..], pid)
  }

  lemma CleanedEnds(ts: seq<P.Timer>, pid: nat)
    ensures Cleaned(ts, 0, pid) == P.TimersWithout(ts, pid) && Cleaned(ts, |ts|, pid) == ts
  {
    assert ts[0..] == ts;
  }

  lemma CleanedMore(ts: seq<P.Timer>, k: nat, pid: nat)
    requires k < |ts|
    ensures if ts[k].pid == pid then Cleaned(RemovedAt(ts, k), k, pid) == Cleaned(ts, k, pid)
            else Cleaned(ts, k + 1, pid) == Cleaned(ts, k, pid)
  {
    assert ts[k..][0] == ts[k] && ts[k..][1..] == ts[k + 1..];
    assert RemovedAt(ts, k)[..k] == ts[..k] && RemovedAt(ts, k)[k..] == ts[k + 1..];
  }
}
