/** The lists of children: PCBPtr blocks of a pool, each pointing to a PCB, linked into the list of its parent. */
module ChildLists {
  import opened Constants
  import opened Sequences
  import opened LinkedLists
  import opened BlockStores

  class ChildTable {
    const store: BlockStore<nat>        // a pointer to a PCB is its pid here
    var heads: map<nat, ListHead<nat>>  // the head in each PCB

    ghost function Footprint(): set<object>
      reads store`lists, store.pool`freeList
    {
      {this} + store.Footprint()
    }

    ghost predicate Valid()
      reads this, store, store.pool, store.pool.freeList, store.memory`prev, store.memory`next, store.lists
    {
      store.Valid() && store.Apart(heads)
    }

    /** The children of each PCB, oldest first. */
    ghost function Kids(): map<nat, seq<nat>>
      reads this, store, store.pool, store.pool.freeList, store.memory, store.lists
      requires Valid()
    {
      store.Contents(heads)
    }

    /** How many pointers are left in the pool. */
    ghost function Room(): nat
      reads store.pool`free
    {
      |store.pool.free|
    }

    constructor (buffer: int, itemSize: int)
      requires itemSize > 0
      ensures Valid() && fresh(store.Footprint()) && Kids() == map[] && Room() == MAX_NUM_PROCESSES
    {
      hide BlockStore.Valid, Upto;
      store := new BlockStore(buffer, itemSize, 0);
      heads := map[];
      new;
      UptoFacts(MAX_NUM_PROCESSES);
    }

    /** The list of `p` starts empty, as PCB_alloc leaves it. */
    method Open(p: nat)
      requires Valid() && p !in Kids()
      modifies Footprint()
      ensures Valid() && fresh(Footprint() - old(Footprint())) && Kids() == old(Kids())[p := []]
      ensures Room() == old(Room())
    {
      hide BlockStore.Valid, BlockStore.Contents, BlockStore.Apart, Values;
      Named(p);
      var head := new ListHead<nat>();
      store.AddHead(heads, p, head);
      heads := heads[p := head];
    }

    lemma Named(p: nat)
      requires Valid()
      ensures p in heads <==> p in Kids()
    {
    }

    /** PCB_free takes no notice of the list. */
    method Close(p: nat)
      requires Valid()
      modifies this`heads
      ensures Valid() && Kids() == old(Kids()) - {p}
    {
      hide BlockStore.Valid, Values;
      heads := heads - {p};
    }

    /** PCBPtr_alloc, and List_insert at the end. */
    method Add(p: nat, child: nat)
      requires Valid() && p in Kids() && Room() > 0
      modifies Footprint()
      ensures Valid() && Footprint() == old(Footprint()) && Room() == old(Room()) - 1
      ensures Kids() == old(Kids()[p := Kids()[p] + [child]])
    {
      hide BlockStore.Valid, BlockStore.Contents;
      Named(p);
      store.AddTo(heads, p, child);
    }

    /** Whether the list is empty. */
    method Empty(p: nat) returns (b: bool)
      requires Valid() && p in Kids()
      ensures b == (Kids()[p] == [])
    {
      Starts(p);
      return heads[p].first == null;
    }

    /** The first pointer moves, as it is, to the end of another list. */
    method MoveFirst(a: nat, b: nat) returns (child: nat)
      requires Valid() && a in Kids() && b in Kids() && a != b && Kids()[a] != []
      modifies Footprint()
      ensures Valid() && Footprint() == old(Footprint()) && Room() == old(Room()) && child == old(Kids()[a][0])
      ensures Kids() == old(Kids()[a := Kids()[a][1..]][b := Kids()[b] + [Kids()[a][0]]])
    {
      hide BlockStore.Valid, BlockStore.Contents;
      Named(b);
      Starts(a);
      Scanned(a, 0);
      child := heads[a].first.value;
      store.MoveFirst(heads, a, b);
    }

    // ---------- scanning ----------

    /** `aux` is the k-th pointer of the list of `p`, or null at its end. */
    ghost predicate At(p: nat, aux: Item?<nat>, k: nat)
      reads this, heads.Values
    {
      p in heads && k <= |heads[p].items| && aux == ItemAt(heads[p].items, k)
    }

    lemma Starts(p: nat)
      requires Valid() && p in Kids()
      ensures p in heads && At(p, heads[p].first, 0) && |heads[p].items| == |Kids()[p]|
    {
    }

    lemma Scanned(p: nat, k: nat)
      requires Valid() && p in Kids() && p in heads && k < |heads[p].items|
      ensures |heads[p].items| == |Kids()[p]| && heads[p].items[k].value == Kids()[p][k]
      ensures heads[p].items[k].next == ItemAt(heads[p].items, k + 1)
    {
      hide BlockStore.Valid;
      store.Linked(heads[p], k);
    }

    /** PCBPtr_byPID. */
    method Find(p: nat, pid: nat) returns (ptr: Item?<nat>, ghost k: nat)
      requires Valid() && p in Kids()
      ensures At(p, ptr, k) && k == IndexOf(Kids()[p], pid) && (ptr == null <==> pid !in Kids()[p])
    {
      hide Valid, Kids;
      Starts(p);
      k, ptr := 0, heads[p].first;
      ghost var cs := Kids()[p];
      assert cs[0..] == cs;
      while ptr != null
        invariant At(p, ptr, k) && IndexOf(cs, pid) == k + IndexOf(cs[k..], pid)
        modifies {}
        decreases |cs| - k
      {
        Scanned(p, k);
        assert cs[k..][0] == cs[k] && cs[k..][1..] == cs[k + 1..];
        if ptr.value == pid {
          return;
        }
        ptr := ptr.next;
        k := k + 1;
      }
    }

    // ---------- removal ----------

    /** List_detach and PCBPtr_free. */
    method Remove(p: nat, ptr: Item<nat>, ghost k: nat)
      requires Valid() && p in Kids() && At(p, ptr, k)
      modifies Footprint()
      ensures Valid() && Footprint() == old(Footprint()) && Room() == old(Room()) + 1 && k < |old(Kids())[p]|
      ensures Kids() == old(Kids()[p := RemovedAt(Kids()[p], k)])
    {
      hide BlockStore.Valid, BlockStore.Contents, RemovedAt;
      store.RemoveFrom(heads, p, ptr, k);
    }

    /** List_detach alone: nothing points to the block any more. */
    method Lose(p: nat, ptr: Item<nat>, ghost k: nat)
      requires Valid() && p in Kids() && At(p, ptr, k)
      modifies Footprint()
      ensures Valid() && Footprint() == old(Footprint()) && Room() == old(Room()) && k < |old(Kids())[p]|
      ensures Kids() == old(Kids()[p := RemovedAt(Kids()[p], k)])
    {
      hide BlockStore.Valid, BlockStore.Contents, RemovedAt;
      store.LoseFrom(heads, p, ptr, k);
    }
  }
}
