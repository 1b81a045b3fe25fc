/** Blocks of a pool, on the heap, linked into lists through their own links: the messages of the queues, the timers,
    and the PCB pointers in the lists of children. */
module BlockStores {
  import opened Constants
  import opened Sequences
  import opened LinkedLists
  import opened Pools

  /** Allocation need not reset the links of a block: every free one has null links. */
  class BlockStore<T> {
    const pool: PoolAllocator
    const blocks: seq<Item<T>>   // the blocks of the pool, in order
    ghost const memory: set<Item<T>>
    ghost var lists: set<ListHead<T>> // the lists in use
    ghost var lost: set<Item<T>>      // blocks taken off a list and never freed

    /** The pool owns the blocks at `buffer`, which static storage has zeroed. */
    constructor (buffer: int, itemSize: int, blank: T)
      requires itemSize > 0
      ensures Valid() && lists == {} && pool.free == Upto(MAX_NUM_RESOURCES)
      ensures pool.buffer == buffer && pool.itemSize == itemSize && |blocks| == MAX_NUM_RESOURCES
      ensures fresh(Footprint()) && fresh(pool)
    {
      hide NoDup, Upto, Times, PoolAllocator.Valid;
      var bs := Zeroed(MAX_NUM_RESOURCES, blank);
      blocks, memory, lists, lost := bs, Members(bs), {}, {};
      pool := new PoolAllocator();
      new;
      var r := pool.Init(itemSize, MAX_NUM_RESOURCES, buffer, Times(MAX_NUM_RESOURCES, itemSize + SIZEOF_INT));
      MembersHas(bs);
      UptoFacts(MAX_NUM_RESOURCES);
    }

    ghost function Footprint(): set<object>
      reads this`lists, pool`freeList
    {
      {this, pool, pool.freeList} + memory + lists
    }

    /** The values in the lists of some heads, in order. */
    ghost function Contents(heads: map<nat, ListHead<T>>): map<nat, seq<T>>
      reads this, pool, pool.freeList, memory, lists
      requires Valid() && Apart(heads)
    {
      map b | b in heads :: Values(heads[b].items)
    }

    static method Zeroed(n: nat, blank: T) returns (bs: seq<Item<T>>)
      ensures |bs| == n && forall i {:trigger bs[i]} :: 0 <= i < n ==> fresh(bs[i]) && bs[i].id == i && bs[i].Unlinked()
    {
      bs := [];
      for i := 0 to n
        invariant |bs| == i && forall j {:trigger bs[j]} :: 0 <= j < i ==>
          fresh(bs[j]) && bs[j].id == j && bs[j].Unlinked()
      {
        var b := new Item(i, blank);
        bs := bs + [b];
      }
    }

    /** A block is free, in exactly one list, or lost; unless it is in a list its links are null. */
    ghost predicate Valid()
      reads this, pool, pool.freeList, memory`prev, memory`next, lists
    {
      Holding(null)
    }

    /** The same while the kernel holds block `h`, taken from the pool or from a list. */
    ghost predicate Holding(h: Item?<T>)
      reads this, pool, pool.freeList, memory`prev, memory`next, lists
    {
      && pool.Valid() && Laid() && Lists()
      && (h != null ==> h in memory && h.id !in pool.free && Loose(h))
      && (forall m <- lost :: m in memory && m.id !in pool.free && m != h)
      && forall m <- memory :: m != h ==> if m.id in pool.free || m in lost then Loose(m) else Listed(m)
    }

    ghost predicate Laid()
      reads pool
    {
      && pool.sizeMax == |blocks|
      && (forall i {:trigger blocks[i]} :: 0 <= i < |blocks| ==> blocks[i].id == i && blocks[i] in memory)
      && (forall m <- memory :: m.id < |blocks| && blocks[m.id] == m)
    }

    ghost predicate Lists()
      reads this`lists, memory`prev, memory`next, lists
    {
      && (forall q <- lists :: q.nodes <= memory && q.Valid())
      && (forall q <- lists, r <- lists :: q != r ==> q.nodes !! r.nodes)
    }

    /** In no list, with null links. */
    ghost predicate Loose(m: Item<T>)
      reads this`lists, m`prev, m`next, lists
    {
      m.Unlinked() && forall q <- lists :: m !in q.nodes
    }

    ghost predicate Listed(m: Item<T>)
      reads this`lists, lists
    {
      exists q <- lists :: m in q.nodes
    }

    /** Whether an allocation would return null. */
    method Exhausted() returns (b: bool)
      requires Valid()
      ensures b == (pool.free == [])
    {
      hide Lists, Loose, Listed, Laid, NoDup;
      return pool.firstIdx == NULL_IDX;
    }

    /** The links are whatever the block last had. */
    method Alloc(value: T) returns (m: Item<T>)
      requires Valid() && pool.free != []
      modifies pool`size, pool`firstIdx, pool`free, pool.freeList, memory`value
      ensures Holding(m) && pool.free == old(pool.free)[1..]
      ensures 0 <= old(pool.free)[0] < |blocks| && m == blocks[old(pool.free)[0]] && m.value == value
      ensures forall x <- memory :: x != m ==> x.value == old(x.value)
    {
      hide Valid, Holding;
      m := TakeBlock();
      assert m in memory by { HeldInMemory(m); }
      m.value := value;
    }

    method TakeBlock() returns (m: Item<T>)
      requires Valid() && pool.free != []
      modifies pool`size, pool`firstIdx, pool`free, pool.freeList
      ensures Holding(m) && pool.free == old(pool.free)[1..]
      ensures 0 <= old(pool.free)[0] < |blocks| && m == blocks[old(pool.free)[0]]
    {
      hide Lists, Loose, Listed, NoDup, PoolAllocator.Valid;
      ghost var free := pool.free;
      pool.FreeIndices();
      FirstTaken(free);
      var found, address := pool.GetBlock();
      m := BlockAt(address, free[0]);
    }

    lemma HeldInMemory(m: Item<T>)
      requires Holding(m)
      ensures m in memory
    {
      hide Lists, Loose, Listed;
    }

    /** The release of a block in no list: always a success. */
    method Free(m: Item<T>)
      requires Holding(m)
      modifies pool`size, pool`firstIdx, pool`free, pool.freeList
      ensures Valid() && pool.free == [m.id] + old(pool.free)
    {
      hide Lists, Loose, Listed;
      pool.IndexedAddress(m.id);
      var r := pool.ReleaseBlock(pool.Address(m.id));
    }

    /** The block that a pointer into the pool stands for. */
    method BlockAt(address: int, ghost idx: int) returns (m: Item<T>)
      requires pool.Valid() && 0 <= idx < |blocks| && address == pool.Address(idx)
      ensures m == blocks[idx]
    {
      CDivUndoesTimes(idx, pool.itemSize);
      m := blocks[CDiv(address - pool.buffer, pool.itemSize)];
    }

    /** A list whose head has just been set up. */
    method AddList(q: ListHead<T>)
      requires Valid() && q.Valid() && q.items == []
      modifies this`lists
      ensures Valid() && lists == old(lists) + {q}
    {
      lists := lists + {q};
    }

    /** List_insert of a held block: never refused. */
    method Insert(q: ListHead<T>, prev: Item?<T>, m: Item<T>)
      requires Holding(m) && q in lists && (prev == null || prev in q.items)
      modifies memory`prev, memory`next, q
      ensures Valid() && q.items == old(InsertedAfter(q.items, prev, m))
      ensures forall r <- lists :: r != q ==> r.items == old(r.items)
    {
      hide NoDup, Chained, Members, Cut, InsertedAt, OnlyAt;
      MembersHas(q.items);
      var r := q.Insert(prev, m);
      assert r == m;
    }

    /** List_detach of a listed block, which leaves it with null links. */
    method Detach(q: ListHead<T>, m: Item<T>)
      requires Valid() && q in lists && m in q.items
      modifies memory`prev, memory`next, q
      ensures Holding(m) && q.items == old(Without(q.items, m))
      ensures forall r <- lists :: r != q ==> r.items == old(r.items)
    {
      hide NoDup, Chained, Members, RemovedAt, IndexOf, OnlyAt;
      MembersHas(q.items);
      var r := q.Detach(m);
    }

    /** A new block with this value after `prev`. */
    method AddAfter(q: ListHead<T>, prev: Item?<T>, value: T)
      requires Valid() && q in lists && pool.free != [] && (prev == null || prev in q.items)
      modifies pool`size, pool`firstIdx, pool`free, pool.freeList, memory, q
      ensures Valid() && pool.free == old(pool.free)[1..]
      ensures Values(q.items) == old(InsertedAt(Values(q.items), Cut(q.items, prev), value))
      ensures forall r <- lists :: r != q ==> Values(r.items) == old(Values(r.items))
    {
      hide Valid, Holding, Cut, InsertedAt;
      ListedBlocks();
      var m := Alloc(value);
      Insert(q, prev, m);
      ValuesInserted(old(q.items), Cut(old(q.items), prev), m);
    }

    /** A new block at the end. */
    method Add(q: ListHead<T>, value: T)
      requires Valid() && q in lists && pool.free != []
      modifies pool`size, pool`firstIdx, pool`free, pool.freeList, memory, q
      ensures Valid() && pool.free == old(pool.free)[1..]
      ensures Values(q.items) == old(Values(q.items)) + [value]
      ensures forall r <- lists :: r != q ==> Values(r.items) == old(Values(r.items))
    {
      hide Valid, Cut, Values, Chained;
      LastListed(q);
      AddAfter(q, q.last, value);
    }

    lemma LastListed(q: ListHead<T>)
      requires Valid() && q in lists
      ensures (q.last == null || q.last in q.items) && Cut(q.items, q.last) == |q.items|
      ensures forall v :: InsertedAt(Values(q.items), |q.items|, v) == Values(q.items) + [v]
    {
      hide Listed, Loose, Laid, Chained;
      LastCut(q.items);
    }

    /** Lists hold blocks of the pool, and no free one. */
    lemma ListedBlocks()
      requires Valid()
      ensures forall q <- lists :: forall x <- q.items :: x in memory && x.id !in pool.free
      ensures pool.free != [] ==> 0 <= pool.free[0] < |blocks| && blocks[pool.free[0]].id in pool.free
    {
      forall q <- lists, x <- q.items ensures x in memory && x.id !in pool.free {
        MembersHas(q.items);
      }
      pool.FreeIndices();
    }

    method First(q: ListHead<T>) returns (m: Item?<T>)
      requires Valid() && q in lists
      ensures m == ItemAt(q.items, 0)
    {
      hide Listed, Loose, Laid, NoDup, Chained;
      return q.first;
    }

    /** Where the links lead, and where in the list an item is. */
    lemma Linked(q: ListHead<T>, k: nat)
      requires Valid() && q in lists && k < |q.items|
      ensures q.items[k].next == ItemAt(q.items, k + 1) && IndexOf(q.items, q.items[k]) == k
      ensures q.items[k] in memory && q.items[k].value == Values(q.items)[k]
    {
      hide Listed, Loose, Laid;
      MembersHas(q.items);
      assert OnlyAt(q.items, k);
    }

    /** Detaches and frees the k-th item. */
    method Remove(q: ListHead<T>, m: Item<T>, ghost k: nat)
      requires Valid() && q in lists && k < |q.items| && m == q.items[k]
      modifies pool`size, pool`firstIdx, pool`free, pool.freeList, memory`prev, memory`next, q
      ensures Valid() && pool.free == [m.id] + old(pool.free)
      ensures q.items == old(RemovedAt(q.items, k)) && Values(q.items) == old(RemovedAt(Values(q.items), k))
      ensures forall r <- lists :: r != q ==> r.items == old(r.items)
    {
      hide Valid, Holding, RemovedAt, IndexOf;
      ghost var rest := RemovedAt(q.items, k);
      ghost var before := Values(rest);
      Linked(q, k);
      ValuesRemoved(q.items, k);
      Detach(q, m);
      assert q.items == rest && Values(rest) == before;
      Free(m);
    }

    /** Detaches the k-th item without freeing it. */
    method Lose(q: ListHead<T>, m: Item<T>, ghost k: nat)
      requires Valid() && q in lists && k < |q.items| && m == q.items[k]
      modifies this`lost, memory`prev, memory`next, q
      ensures Valid() && Values(q.items) == old(RemovedAt(Values(q.items), k))
      ensures forall r <- lists :: r != q ==> r.items == old(r.items)
    {
      hide Valid, Holding, RemovedAt, IndexOf;
      ghost var rest := RemovedAt(q.items, k);
      ghost var before := Values(rest);
      Linked(q, k);
      ValuesRemoved(q.items, k);
      Detach(q, m);
      assert q.items == rest && Values(rest) == before;
      Abandon(m);
    }

    ghost method Abandon(m: Item<T>)
      requires Holding(m)
      modifies this`lost
      ensures Valid()
    {
      hide NoDup, Laid, Lists;
      lost := lost + {m};
    }

    /** The first item moves to the end of another list. */
    method Move(from: ListHead<T>, to: ListHead<T>)
      requires Valid() && from in lists && to in lists && from != to && from.items != []
      modifies memory`prev, memory`next, from, to
      ensures Valid() && Values(from.items) == old(Values(from.items))[1..]
      ensures Values(to.items) == old(Values(to.items) + [Values(from.items)[0]])
      ensures forall r <- lists :: r != from && r != to ==> r.items == old(r.items)
    {
      hide Valid, Holding, Values;
      var m := DetachFirst(from);
      Append(to, m);
    }

    method DetachFirst(q: ListHead<T>) returns (m: Item<T>)
      requires Valid() && q in lists && q.items != []
      modifies memory`prev, memory`next, q
      ensures Holding(m) && m.value == old(Values(q.items))[0] && Values(q.items) == old(Values(q.items))[1..]
      ensures forall r <- lists :: r != q ==> r.items == old(r.items)
    {
      hide Valid, Holding, Values;
      m := First(q);
      FirstWithout(q.items);
      ValuesTail(q.items);
      ghost var rest := q.items[1..];
      ghost var values := Values(rest);
      Detach(q, m);
      assert q.items == rest && Values(rest) == values;
    }

    method Append(q: ListHead<T>, m: Item<T>)
      requires Holding(m) && q in lists
      modifies memory`prev, memory`next, q
      ensures Valid() && Values(q.items) == old(Values(q.items)) + [m.value]
      ensures forall r <- lists :: r != q ==> r.items == old(r.items)
    {
      hide Valid, Holding, Cut, InsertedAt;
      HeldEnd(q, m);
      ghost var after := InsertedAt(q.items, |q.items|, m);
      ValuesWith(q.items, |q.items|, m);
      ghost var values := Values(after);
      Insert(q, q.last, m);
      assert q.items == after && Values(after) == values;
    }

    lemma HeldEnd(q: ListHead<T>, m: Item<T>)
      requires Holding(m) && q in lists
      ensures (q.last == null || q.last in q.items) && Cut(q.items, q.last) == |q.items|
      ensures forall v :: InsertedAt(Values(q.items), |q.items|, v) == Values(q.items) + [v]
    {
      hide Listed, Loose, Laid, Chained;
      LastCut(q.items);
    }

    /** Takes the first value off the list. */
    method TakeFirst(q: ListHead<T>) returns (value: T)
      requires Valid() && q in lists && q.items != []
      modifies pool`size, pool`firstIdx, pool`free, pool.freeList, memory`prev, memory`next, q
      ensures Valid() && pool.free == [old(q.items[0].id)] + old(pool.free)
      ensures [value] + Values(q.items) == old(Values(q.items))
      ensures forall r <- lists :: r != q ==> Values(r.items) == old(Values(r.items))
    {
      hide Valid, Holding, RemovedAt;
      var m := First(q);
      value := m.value;
      ValuesTail(q.items);
      FrontRemoved(Values(q.items));
      Remove(q, m, 0);
    }

    // ---------- lists by the name of their head ----------

    method AddTo(heads: map<nat, ListHead<T>>, b: nat, value: T)
      requires Valid() && Apart(heads) && b in heads && pool.free != []
      modifies pool`size, pool`firstIdx, pool`free, pool.freeList, memory, heads[b]
      ensures Valid() && |pool.free| == old(|pool.free|) - 1
      ensures Contents(heads) == old(Contents(heads)[b := Contents(heads)[b] + [value]])
    {
      hide Valid, Values;
      Add(heads[b], value);
    }

    method TakeFrom(heads: map<nat, ListHead<T>>, b: nat) returns (value: T)
      requires Valid() && Apart(heads) && b in heads && Contents(heads)[b] != []
      modifies pool`size, pool`firstIdx, pool`free, pool.freeList, memory`prev, memory`next, heads[b]
      ensures Valid() && |pool.free| == old(|pool.free|) + 1
      ensures value == old(Contents(heads)[b][0])
      ensures Contents(heads) == old(Contents(heads)[b := Contents(heads)[b][1..]])
    {
      hide Valid, Values;
      value := TakeFirst(heads[b]);
    }

    /** A head is set up with an empty list. */
    method AddHead(heads: map<nat, ListHead<T>>, b: nat, q: ListHead<T>)
      requires Valid() && Apart(heads) && b !in heads && q.Valid() && q.items == [] && q !in lists
      modifies this`lists
      ensures Valid() && lists == old(lists) + {q} && Apart(heads[b := q]) && Contents(heads).Keys == heads.Keys
      ensures Contents(heads[b := q]) == old(Contents(heads)[b := []])
    {
      hide Valid, Values;
      NoValues<T>();
      AddList(q);
    }

    method RemoveFrom(heads: map<nat, ListHead<T>>, b: nat, m: Item<T>, ghost k: nat)
      requires Valid() && Apart(heads) && b in heads && k < |heads[b].items| && m == heads[b].items[k]
      modifies pool`size, pool`firstIdx, pool`free, pool.freeList, memory`prev, memory`next, heads[b]
      ensures Valid() && |pool.free| == old(|pool.free|) + 1 && k < |old(Contents(heads))[b]|
      ensures Contents(heads) == old(Contents(heads)[b := RemovedAt(Contents(heads)[b], k)])
    {
      hide Valid, Values, RemovedAt;
      Remove(heads[b], m, k);
    }

    method LoseFrom(heads: map<nat, ListHead<T>>, b: nat, m: Item<T>, ghost k: nat)
      requires Valid() && Apart(heads) && b in heads && k < |heads[b].items| && m == heads[b].items[k]
      modifies this`lost, memory`prev, memory`next, heads[b]
      ensures Valid() && k < |old(Contents(heads))[b]|
      ensures Contents(heads) == old(Contents(heads)[b := RemovedAt(Contents(heads)[b], k)])
    {
      hide Valid, Values, RemovedAt;
      Lose(heads[b], m, k);
    }

    method MoveFirst(heads: map<nat, ListHead<T>>, a: nat, b: nat)
      requires Valid() && Apart(heads) && a in heads && b in heads && a != b && Contents(heads)[a] != []
      modifies memory`prev, memory`next, heads[a], heads[b]
      ensures Valid()
      ensures var c := old(Contents(heads));
        Contents(heads) == c[a := c[a][1..]][b := c[b] + [c[a][0]]]
    {
      hide Valid, Values;
      Move(heads[a], heads[b]);
    }

    method DrainBlock(heads: map<nat, ListHead<T>>, b: nat, address: int)
      requires Valid() && Apart(heads) && b in heads && Outside(address)
      modifies this`lists, pool`size, pool`firstIdx, pool`free, pool.freeList, memory`prev, memory`next, heads[b]
      ensures Valid() && lists == old(lists) - {heads[b]} && Apart(heads - {b})
      ensures |pool.free| == old(|pool.free| + |Contents(heads)[b]|)
      ensures Contents(heads - {b}) == old(Contents(heads) - {b})
    {
      hide Valid, Values;
      Drain(heads[b], address);
    }

    /** The heads are those of different live lists. */
    ghost predicate Apart(heads: map<nat, ListHead<T>>)
      reads this`lists
    {
      (forall b <- heads :: heads[b] in lists) && forall b <- heads, c <- heads :: b != c ==> heads[b] != heads[c]
    }

    /** Every block of a list goes back to the pool, and the list is in use no more. The release of `head`, the
        address of its head, is refused, since that is no block of the pool. */
    method Drain(q: ListHead<T>, head: int)
      requires Valid() && q in lists && Outside(head)
      modifies this`lists, pool`size, pool`firstIdx, pool`free, pool.freeList, memory`prev, memory`next, q
      ensures Valid() && lists == old(lists) - {q}
      ensures |pool.free| == old(|pool.free| + |q.items|)
      ensures forall r <- lists :: r.items == old(r.items)
    {
      hide Valid, Holding, Values, RemovedAt, PoolAllocator.Valid;
      var aux := First(q);
      while aux != null
        invariant Valid() && lists == old(lists) && Outside(head) && aux == ItemAt(q.items, 0)
        invariant |pool.free| + |q.items| == old(|pool.free| + |q.items|)
        invariant forall r <- lists :: r != q ==> r.items == old(r.items)
        decreases |q.items|
      {
        Linked(q, 0);
        FrontRemoved(q.items);
        var temp := aux;
        aux := aux.next;
        Remove(q, temp, 0);
      }
      RefuseForeign(head);
      Forget(q);
    }

    method RefuseForeign(address: int)
      requires Valid() && Outside(address)
      modifies pool`size, pool`firstIdx, pool`free, pool.freeList
      ensures Valid() && pool.free == old(pool.free)
    {
      hide Listed, Loose, Lists, NoDup;
      pool.Refuse(address);
    }

    method Forget(q: ListHead<T>)
      requires Valid() && q in lists && q.items == []
      modifies this`lists
      ensures Valid() && lists == old(lists) - {q}
    {
      hide NoDup, Chained;
      lists := lists - {q};
    }

    /** An address in none of the pool's blocks. */
    ghost predicate Outside(address: int)
      reads pool
    {
      address < pool.buffer || pool.Address(|blocks|) <= address
    }
  }

  lemma FirstWithout<T>(items: seq<Item<T>>)
    requires items != []
    ensures Without(items, items[0]) == items[1..]
  {
  }

  lemma NoValues<T>()
    ensures Values<T>([]) == []
  {
  }

  lemma ValuesTail<T>(items: seq<Item<T>>)
    requires items != []
    ensures Values(items) == [items[0].value] + Values(items[1..])
  {
    var a, b := Values(items), [items[0].value] + Values(items[1..]);
    forall i | 0 <= i < |a| ensures a[i] == b[i] {
    }
  }

  twostate lemma ValuesInserted<T>(items: seq<Item<T>>, new k: nat, new m: Item<T>)
    requires k <= |items| && forall x <- items :: x.value == old(x.value)
    ensures Values(InsertedAt(items, k, m)) == InsertedAt(old(Values(items)), k, m.value)
  {
    hide Values, InsertedAt;
    SameValues(items);
    ValuesWith(items, k, m);
  }

  twostate lemma SameValues<T>(items: seq<Item<T>>)
    requires forall x <- items :: x.value == old(x.value)
    ensures Values(items) == old(Values(items))
  {
    hide Values;
    forall i | 0 <= i < |items| ensures Values(items)[i] == old(Values(items))[i] {
      assert items[i] in items;
    }
  }

  lemma ValuesWith<T>(items: seq<Item<T>>, k: nat, m: Item<T>)
    requires k <= |items|
    ensures Values(InsertedAt(items, k, m)) == InsertedAt(Values(items), k, m.value)
  {
    hide Values;
    var with := InsertedAt(items, k, m);
    var a, b := Values(with), InsertedAt(Values(items), k, m.value);
    forall i | 0 <= i < |a| ensures a[i] == b[i] {
      assert a[i] == with[i].value;
      if i < k {
        assert with[i] == items[i] && Values(items)[i] == items[i].value;
      } else if i > k {
        assert with[i] == items[i - 1] && Values(items)[i - 1] == items[i - 1].value;
      }
    }
  }

  lemma ValuesRemoved<T>(items: seq<Item<T>>, k: nat)
    requires k < |items|
    ensures Values(RemovedAt(items, k)) == RemovedAt(Values(items), k)
  {
    var a, b := Values(RemovedAt(items, k)), RemovedAt(Values(items), k);
    forall i | 0 <= i < |a| ensures a[i] == b[i] {
    }
  }

  lemma FrontRemoved<T>(s: seq<T>)
    requires s != []
    ensures RemovedAt(s, 0) == s[1..]
  {
  }

  lemma FirstTaken(s: seq<nat>)
    requires NoDup(s) && s != []
    ensures forall i: int :: i in s <==> i == s[0] || i in s[1..]
    ensures s[0] !in s[1..]
  {
    assert OnlyAt(s, 0);
  }

  /** The values of a list, in order. */
  ghost function Values<T>(items: seq<Item<T>>): (r: seq<T>)
    reads items`value
    ensures |r| == |items| && forall i {:trigger r[i]} {:trigger items[i]} :: 0 <= i < |r| ==> r[i] == items[i].value
  {
    if items == [] then [] else Values(items[..|items| - 1]) + [items[|items| - 1].value]
  }
}
