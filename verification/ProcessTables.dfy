/** The PCBs on the heap, the pool of their blocks, and the three process lists threaded through their one `list`
    field. */
module ProcessTables {
  import opened Constants
  import opened Sequences
  import opened LinkedLists
  import opened Pools
  import P = Processes

  /** A PCB but for its list of children, whose head is an object of its own. */
  datatype Fields = Fields(
    status: P.Status, parent: Option<nat>, hasTimer: bool, signals: set<P.Signal>, signalsMask: set<P.Signal>,
    returnValue: int, syscallNum: int, args: P.Registers, retvalue: int)

  type Block = Item<Fields>
  type Head = ListHead<Fields>

  function Ids(items: seq<Block>): (r: seq<nat>)
    ensures |r| == |items| && forall i {:trigger r[i]} {:trigger items[i]} :: 0 <= i < |items| ==> r[i] == items[i].id
  {
    seq(|items|, i requires 0 <= i < |items| => items[i].id)
  }

  class ProcessTable {
    var blocks: map<nat, Block>  // the allocated PCBs; a PCB pointer is its pid here
    const ready: Head
    const waiting: Head
    const zombies: Head
    const frames: PoolAllocator  // the memory blocks of PCBs
    var home: map<nat, nat>      // which of them each pid got
    var tenant: map<nat, nat>    // which pid got each of them last
    ghost var pool: set<Block>   // the blocks of `blocks`

    /** List_init of the three lists, over a full pool. */
    constructor (buffer: int, itemSize: int)
      requires itemSize > 0
      ensures Valid() && blocks == map[] && pool == {} && home == map[] && tenant == map[]
      ensures fresh(Footprint() - {this})
      ensures ready.items == waiting.items == zombies.items == [] && frames.free == Upto(MAX_NUM_PROCESSES)
    {
      hide PoolAllocator.Valid, NoDup, Chained, Upto;
      blocks, pool, home, tenant := map[], {}, map[], map[];
      ready := new ListHead();
      waiting := new ListHead();
      zombies := new ListHead();
      var f := NewFrames(buffer, itemSize);
      frames := f;
    }

    /** PCB_init, with exactly the memory it needs. */
    static method NewFrames(buffer: int, itemSize: int) returns (p: PoolAllocator)
      requires itemSize > 0
      ensures fresh(p) && fresh(p.freeList) && p.Valid() && p.sizeMax == MAX_NUM_PROCESSES
      ensures p.free == Upto(MAX_NUM_PROCESSES)
    {
      hide NoDup, Upto, Times;
      p := new PoolAllocator();
      var r := p.Init(itemSize, MAX_NUM_PROCESSES, buffer, Times(MAX_NUM_PROCESSES, itemSize + SIZEOF_INT));
    }

    ghost predicate Valid()
      reads this, ready, waiting, zombies, pool, frames, frames.freeList
      ensures Valid() ==> Pooled() && ready != waiting && ready != zombies && waiting != zombies
    {
      Linked() && Framed() && Lodged(blocks.Keys, home, frames.free)
    }

    /** Lists are well formed and disjoint, and a PCB in no list has null links. */
    ghost predicate Linked()
      reads this`blocks, this`pool, ready, waiting, zombies, pool
    {
      && Pooled()
      && ready != waiting && ready != zombies && waiting != zombies
      && ready.nodes <= pool && waiting.nodes <= pool && zombies.nodes <= pool
      && ready.nodes !! waiting.nodes !! zombies.nodes
      && ready.Valid() && waiting.Valid() && zombies.Valid()
      && (forall x <- pool - ready.nodes - waiting.nodes - zombies.nodes :: x.Unlinked())
    }

    ghost predicate Framed()
      reads frames, frames.freeList
    {
      frames.Valid() && frames.sizeMax == MAX_NUM_PROCESSES
    }

    /** Every block is found under its pid. */
    ghost predicate Pooled()
      reads this`blocks, this`pool
    {
      && (forall p <- blocks :: blocks[p].id == p && blocks[p] in pool)
      && (forall x <- pool :: x.id in blocks && blocks[x.id] == x)
    }

    ghost function Footprint(): set<object>
      reads this`pool, frames`freeList
    {
      {this, ready, waiting, zombies, frames, frames.freeList} + pool
    }

    ghost function Regs(): map<nat, Fields>
      reads this`blocks, this`pool, pool`value
      requires Pooled()
    {
      map p | p in blocks :: blocks[p].value
    }

    ghost predicate Free(p: nat)
      reads ready, waiting, zombies
    {
      p !in Ids(ready.items) && p !in Ids(waiting.items) && p !in Ids(zombies.items)
    }

    /** Every list but `list` is as it was. */
    twostate predicate OthersSame(list: Head)
      reads ready, waiting, zombies
    {
      && (ready != list ==> ready.items == old(ready.items))
      && (waiting != list ==> waiting.items == old(waiting.items))
      && (zombies != list ==> zombies.items == old(zombies.items))
    }

    /** A PCB whose pid is in no list is linked nowhere. */
    lemma FreeIsUnlinked(p: nat)
      requires Linked() && p in blocks && Free(p)
      ensures blocks[p] !in ready.items && blocks[p] !in waiting.items && blocks[p] !in zombies.items
      ensures blocks[p] !in ready.nodes && blocks[p] !in waiting.nodes && blocks[p] !in zombies.nodes
      ensures blocks[p].Unlinked() && blocks[p] in pool && blocks[p].id == p
    {
      hide NoDup, Chained;
      NotAmong(ready.items, blocks[p]);
      NotAmong(waiting.items, blocks[p]);
      NotAmong(zombies.items, blocks[p]);
    }

    lemma UnknownIsFree(p: nat)
      requires Linked() && p !in blocks
      ensures Free(p)
    {
      hide NoDup, Chained;
      UnknownNotIn(ready, p);
      UnknownNotIn(waiting, p);
      UnknownNotIn(zombies, p);
    }

    lemma UnknownNotIn(list: Head, p: nat)
      requires Linked() && list in {ready, waiting, zombies} && p !in blocks
      ensures p !in Ids(list.items)
    {
      hide NoDup, Chained;
      forall i | 0 <= i < |list.items| ensures list.items[i].id != p {
        assert list.items[i] in list.items && list.items[i] in pool;
      }
    }

    lemma FoundInList(list: Head, p: nat)
      requires Valid() && list in {ready, waiting, zombies} && p in Ids(list.items)
      ensures p in blocks && blocks[p].id == p
      ensures blocks[p] in list.items && blocks[p] in list.nodes && blocks[p] in pool
      ensures IndexOf(list.items, blocks[p]) == IndexOf(Ids(list.items), p)
    {
      hide NoDup, Chained;
      var i :| 0 <= i < |list.items| && list.items[i].id == p;
      MembersHas(list.items);
      assert forall x <- list.items :: x in pool;
      SameIndex(list.items, blocks[p]);
    }

    /** List_insert of a PCB that is in no list: never rejected. */
    method InsertItem(list: Head, prev: Item?<Fields>, item: Block)
      requires Valid() && list in {ready, waiting, zombies} && (prev == null || prev in list.items)
      requires item in pool - ready.nodes - waiting.nodes - zombies.nodes && item !in list.items
      modifies list, pool`prev, pool`next
      ensures Valid() && OthersSame(list)
      ensures list.items == old(InsertedAfter(list.items, prev, item))
    {
      hide NoDup, Chained, Members, Cut, InsertedAt, Framed, Lodged;
      var r := list.Insert(prev, item);
    }

    /** List_detach of a PCB that is in the list. */
    method DetachItem(list: Head, item: Block)
      requires Valid() && list in {ready, waiting, zombies} && item in list.items && item in pool && item in list.nodes
      modifies list, pool`prev, pool`next
      ensures Valid() && OthersSame(list)
      ensures list.items == old(Without(list.items, item))
    {
      hide NoDup, Chained, Members, IndexOf, RemovedAt, Framed, Lodged;
      var r := list.Detach(item);
    }

    method Insert(list: Head, prev: Option<nat>, p: nat)
      requires Valid() && list in {ready, waiting, zombies} && p in blocks && Free(p)
      requires prev.Some? ==> prev.value in Ids(list.items)
      modifies list, pool`prev, pool`next
      ensures Valid() && OthersSame(list)
      ensures Ids(list.items) == old(InsertedPid(Ids(list.items), prev, p))
    {
      hide Pooled;
      FreeIsUnlinked(p);
      if prev.Some? {
        FoundInList(list, prev.value);
      }
      hide Valid, NoDup;
      IdsInserted(list.items, if prev.None? then null else blocks[prev.value], blocks[p]);
      InsertItem(list, if prev.None? then null else blocks[prev.value], blocks[p]);
    }

    /** List_insert at the end of `list`. */
    method InsertLast(list: Head, p: nat)
      requires Valid() && list in {ready, waiting, zombies} && p in blocks && Free(p)
      modifies list, pool`prev, pool`next
      ensures Valid() && OthersSame(list)
      ensures Ids(list.items) == old(Ids(list.items)) + [p]
    {
      hide Chained, Members, Cut;
      FreeIsUnlinked(p);
      LastCut(list.items);
      IdsAppended(list.items, blocks[p]);
      InsertItem(list, list.last, blocks[p]);
    }

    method Detach(list: Head, p: nat)
      requires Valid() && list in {ready, waiting, zombies} && p in Ids(list.items)
      modifies list, pool`prev, pool`next
      ensures Valid() && OthersSame(list)
      ensures Ids(list.items) == old(RemovedAt(Ids(list.items), IndexOf(Ids(list.items), p)))
    {
      FoundInList(list, p);
      hide Valid, NoDup, RemovedAt;
      IdsRemoved(list.items, blocks[p]);
      DetachItem(list, blocks[p]);
    }

    /** Writing fields of a PCB. */
    method Write(p: nat, v: Fields)
      requires Valid() && p in blocks
      modifies pool`value
      ensures Valid() && blocks == old(blocks) && Regs() == old(Regs())[p := v]
    {
      hide NoDup, Chained, Members;
      blocks[p].value := v;
    }

    /** PCB_alloc: the block on top of the pool gets a new tenant. */
    method Alloc(p: nat, v: Fields)
      requires Valid() && p !in blocks && frames.free != []
      modifies this, frames`size, frames`firstIdx, frames`free, frames.freeList
      ensures Valid() && Regs() == old(Regs())[p := v] && Free(p) && fresh(pool - old(pool))
      ensures frames.free == old(frames.free)[1..]
      ensures home == old(home)[p := old(frames.free)[0]] && tenant == old(tenant)[old(frames.free)[0] := p]
    {
      hide Linked, Framed, Lodged;
      TakeFrame(p);
      AddBlock(p, v);
    }

    method TakeFrame(p: nat)
      requires Framed() && Lodged(blocks.Keys, home, frames.free) && p !in blocks && frames.free != []
      modifies this`home, this`tenant, frames`size, frames`firstIdx, frames`free, frames.freeList
      ensures Framed() && Lodged(blocks.Keys + {p}, home, frames.free) && frames.free == old(frames.free)[1..]
      ensures home == old(home)[p := old(frames.free)[0]] && tenant == old(tenant)[old(frames.free)[0] := p]
    {
      hide NoDup, PoolAllocator.Valid;
      TopIsFree();
      var frame := frames.Take();
      home, tenant := home[p := frame.value], tenant[frame.value := p];
    }

    method AddBlock(p: nat, v: Fields)
      requires Linked() && p !in blocks
      modifies this`blocks, this`pool
      ensures Linked() && Regs() == old(Regs())[p := v] && Free(p) && blocks.Keys == old(blocks.Keys) + {p}
      ensures fresh(pool - old(pool))
    {
      hide NoDup, Chained, Members, ListHead.Valid;
      UnknownIsFree(p);
      var b := new Item(p, v);
      blocks, pool := blocks[p := b], pool + {b};
    }

    lemma TopIsFree()
      requires frames.Valid() && frames.free != []
      ensures frames.free[0] !in frames.free[1..] && 0 <= frames.free[0] < frames.sizeMax
    {
      frames.FreeIndices();
      assert OnlyAt(frames.free, 0);
    }

    /** PCB_free. */
    method Release(p: nat)
      requires Valid() && p in blocks && Free(p)
      modifies this, frames`size, frames`firstIdx, frames`free, frames.freeList
      ensures Valid() && Regs() == old(Regs()) - {p} && pool <= old(pool)
      ensures p in old(home) && frames.free == [old(home)[p]] + old(frames.free)
      ensures home == old(home) && tenant == old(tenant)
    {
      hide Linked, Framed;
      DropBlock(p);
      GiveFrame(p);
    }

    method DropBlock(p: nat)
      requires Linked() && p in blocks && Free(p)
      modifies this`blocks, this`pool
      ensures Linked() && Regs() == old(Regs()) - {p} && pool <= old(pool) && blocks.Keys == old(blocks.Keys) - {p}
    {
      hide NoDup, Chained, Members;
      FreeIsUnlinked(p);
      pool := pool - {blocks[p]};
      blocks := blocks - {p};
    }

    method GiveFrame(p: nat)
      requires Framed() && p in home && home[p] < MAX_NUM_PROCESSES && home[p] !in frames.free
      modifies frames`size, frames`firstIdx, frames`free, frames.freeList
      ensures Framed() && frames.free == [home[p]] + old(frames.free)
    {
      hide NoDup, PoolAllocator.Valid;
      frames.Give(home[p]);
    }

    /** The process whose PCB is in the block that `p` got, if there is one: what a pointer to the PCB of `p` leads
        to. */
    method Follow(p: nat) returns (q: Option<nat>)
      requires p in home && home[p] in tenant
      ensures q == if tenant[home[p]] in blocks then Some(tenant[home[p]]) else None
    {
      var last := tenant[home[p]];
      return if last in blocks then Some(last) else None;
    }
  }

  /** Each PCB is in a memory block of its own, which is not free. */
  ghost predicate Lodged(pids: set<nat>, home: map<nat, nat>, free: seq<nat>) {
    && (forall p <- pids :: p in home && home[p] < MAX_NUM_PROCESSES && home[p] !in free)
    && (forall p <- pids, q <- pids :: p != q ==> home[p] != home[q])
  }

  function InsertedPid(ids: seq<nat>, prev: Option<nat>, p: nat): seq<nat>
    requires prev.Some? ==> prev.value in ids
  {
    InsertedAt(ids, if prev.None? then 0 else IndexOf(ids, prev.value) + 1, p)
  }

  lemma IdsInserted(items: seq<Block>, prev: Item?<Fields>, item: Block)
    requires prev != null ==>
      prev in items && prev.id in Ids(items) && IndexOf(items, prev) == IndexOf(Ids(items), prev.id)
    ensures Ids(InsertedAfter(items, prev, item))
      == InsertedPid(Ids(items), if prev == null then None else Some(prev.id), item.id)
  {
    IdsInsertedAt(items, Cut(items, prev), item);
  }

  lemma IdsInsertedAt(items: seq<Block>, k: nat, item: Block)
    requires k <= |items|
    ensures Ids(InsertedAt(items, k, item)) == InsertedAt(Ids(items), k, item.id)
  {
    var a, b := Ids(InsertedAt(items, k, item)), InsertedAt(Ids(items), k, item.id);
    forall i | 0 <= i < |a| ensures a[i] == b[i] {
    }
  }

  lemma IdsAppended(items: seq<Block>, item: Block)
    ensures Ids(items + [item]) == Ids(items) + [item.id]
  {
  }

  lemma IdsRemoved(items: seq<Block>, item: Block)
    requires item in items && item.id in Ids(items) && IndexOf(items, item) == IndexOf(Ids(items), item.id)
    ensures Ids(Without(items, item)) == RemovedAt(Ids(items), IndexOf(Ids(items), item.id))
  {
  }

  lemma NotAmong(items: seq<Block>, x: Block)
    requires x.id !in Ids(items)
    ensures x !in items && x !in Members(items)
  {
    forall i | 0 <= i < |items| ensures items[i] != x {
      assert Ids(items)[i] != x.id;
    }
  }

  lemma {:induction false} SameIndex(items: seq<Block>, x: Block)
    requires x in items && forall y <- items :: y.id == x.id ==> y == x
    ensures IndexOf(items, x) == IndexOf(Ids(items), x.id)
  {
    if items[0] != x {
      assert Ids(items)[1..] == Ids(items[1..]);
      SameIndex(items[1..], x);
    }
  }
}
