/** The resource half of the kernel as it runs: every block comes from a pool of `BlockPools`, and the messages of
    the queues are the linked blocks of a `BlockStore`. Each routine is proved to do what its specification in
    `Resources` says. */
module ResourceKernels {
  import opened Constants
  import opened Sequences
  import opened LinkedLists
  import opened BlockStores
  import opened Pools
  import opened BlockPools
  import opened KernelSteps
  import P = Processes
  import R = Resources
  import J = ResourceInvariant

  type Queue = ListHead<int> // of messages, each the address of a text

  /** An entry of resources_list: a block of the Resource pool, or one of the queue pool that starts with a copy of a
      Resource. */
  datatype Home = InResources(block: nat) | InQueues(block: nat)
  datatype Slot = Slot(rtype: int, ptrs: seq<nat>, home: Home)

  class ResourceKernel {
    var order: seq<int>
    var slots: map<int, Slot>
    var heads: map<nat, Queue>  // the list heads in the queue blocks set up so far
    var desc: map<nat, R.Desc>
    var dptr: map<nat, nat>
    var files: map<nat, R.Files>
    var numMsg: map<nat, nat>
    const pools: PoolSet
    const store: BlockStore<int>
    ghost var Repr: set<object> // what the resource half is made of
    ghost var queuesMade: nat
    ghost var stranded: map<nat, seq<int>>
    ghost var lostMessages: nat

    ghost predicate Valid()
      reads this`slots, this`heads, this`desc, this`dptr, this`Repr, Repr - {this}
    {
      Founded() && Housed(slots, heads, pools.queues.free, pools.resources.free) && Indexed(desc, dptr)
    }

    /** The pools and the message store are in order and share nothing. */
    ghost predicate Founded()
      reads this`heads, this`Repr, Repr - {this}
    {
      && {this, store, store.pool} + pools.Allocators() <= Repr
      && pools.Footprint() + store.Footprint() <= Repr && pools.Footprint() !! store.Footprint()
      && pools.Valid() && store.Valid() && store.Apart(heads) && Based()
    }

    /** The message blocks are where the layout says. */
    ghost predicate Based()
      reads store.pool`buffer, store.pool`itemSize
    {
      && pools.layout.Sound()
      && store.pool.buffer == pools.layout.messageBuffer && store.pool.itemSize == pools.layout.messageSize
      && |store.blocks| == MAX_NUM_RESOURCES
    }

    /** The state as `Resources` sees it. */
    ghost function View(): R.Table
      reads this, Repr
      requires Valid()
    {
      R.Table(order, Res(), desc, dptr, files, pools.descriptors.free, pools.pointers.free, pools.queues.free, numMsg,
              |pools.resources.free|, |store.pool.free|, queuesMade, stranded, lostMessages)
    }

    /** The entries of the list, each queue with the texts its own list links. */
    ghost function Res(): map<int, R.Resource>
      reads this`slots, this`heads, this`Repr, Repr - {this}
      requires Founded()
    {
      Shown(slots, store.Contents(heads))
    }

    constructor (layout: Layout)
      requires layout.Sound()
      ensures Valid() && View() == BootedTable() && fresh(Repr - {this})
    {
      hide BlockStore.Valid, BlockStore.Footprint, PoolSet.Valid, NoDup, Upto, ZeroCounts, Disjoint;
      hide Valid, Founded, View, BootedTable;
      order, slots, heads, desc, dptr, files := [], map[], map[], map[], map[], map[0 := R.Files(0, [])];
      numMsg := ZeroCounts();
      queuesMade, stranded, lostMessages := 0, map[], 0;
      pools := new PoolSet(layout);
      store := new BlockStore(layout.messageBuffer, layout.messageSize, 0);
      new;
      Own();
    }

    /** From here on the kernel owns its pools and its message store. */
    ghost method Own()
      requires Based() && AtBoot() && pools.Valid() && store.Valid() && pools.Footprint() !! store.Footprint()
      modifies this`Repr
      ensures Valid() && View() == BootedTable() && Repr == {this} + pools.Footprint() + store.Footprint()
    {
      hide BlockStore.Valid, BlockStore.Contents, PoolSet.Valid, Based, Upto, ZeroCounts;
      Repr := {this} + pools.Footprint() + store.Footprint();
    }

    /** The values that the constructor gives to the fields. */
    ghost predicate AtBoot()
      reads this, store`lists, store.pool`free, pools.descriptors`free, pools.pointers`free, pools.resources`free
      reads pools.queues`free
    {
      && order == [] && slots == map[] && heads == map[] && desc == map[] && dptr == map[]
      && files == map[0 := R.Files(0, [])] && numMsg == ZeroCounts()
      && pools.descriptors.free == pools.pointers.free == pools.resources.free == pools.queues.free
      && pools.queues.free == store.pool.free == Upto(MAX_NUM_RESOURCES)
      && queuesMade == 0 && stranded == map[] && lostMessages == 0
    }

    // ---------- the pools ----------

    method Take(p: PoolAllocator) returns (idx: Option<nat>)
      requires Founded() && p in pools.Allocators()
      modifies p`size, p`firstIdx, p`free, p.freeList
      ensures Founded() && Res() == old(Res()) && NoDup(old(p.free))
      ensures if old(p.free) == [] then idx == None && p.free == []
        else idx == Some(old(p.free)[0]) && p.free == old(p.free)[1..] && old(p.free)[0] < MAX_NUM_RESOURCES
    {
      hide BlockStore.Valid, BlockStore.Contents, BlockStore.Apart, PoolSet.Valid, Based, Shown, NoDup;
      idx := pools.Take(p);
    }

    method Give(p: PoolAllocator, idx: nat)
      requires Founded() && p in pools.Allocators() && idx < MAX_NUM_RESOURCES && idx !in p.free
      modifies p`size, p`firstIdx, p`free, p.freeList
      ensures Founded() && Res() == old(Res()) && p.free == [idx] + old(p.free)
    {
      hide BlockStore.Valid, BlockStore.Contents, BlockStore.Apart, PoolSet.Valid, Based, Shown, NoDup;
      pools.Give(p, idx);
    }

    method FreeCopy(block: nat)
      requires Founded() && block < MAX_NUM_RESOURCES
      modifies pools.resources`size, pools.resources`firstIdx, pools.resources`free, pools.resources.freeList
      ensures Founded() && Res() == old(Res()) && pools.resources.free == old(pools.resources.free)
    {
      hide BlockStore.Valid, BlockStore.Contents, BlockStore.Apart, PoolSet.Valid, Based, Shown, NoDup;
      pools.FreeCopy(block);
    }

    // ---------- the blocks of the list ----------

    /** A change to an entry's list of DescriptorPtr blocks. */
    method SetPtrs(id: int, ptrs: seq<nat>)
      requires Valid() && id in slots
      modifies this`slots
      ensures Valid() && slots == old(slots[id := slots[id].(ptrs := ptrs)])
      ensures id in old(Res()) && Res() == old(Res()[id := Res()[id].(ptrs := ptrs)])
    {
      hide Founded, BlockStore.Contents;
      var slot := slots[id].(ptrs := ptrs);
      Stored();
      ShownAt(slots, store.Contents(heads), id, slot);
      slots := slots[id := slot];
    }

    method DropSlot(id: int)
      requires Valid() && id in slots
      modifies this`slots
      ensures Valid() && slots == old(slots) - {id} && Res() == old(Res()) - {id}
    {
      hide Founded, BlockStore.Contents;
      Stored();
      ShownAt(slots, store.Contents(heads), id, slots[id]);
      slots := slots - {id};
    }

    /** The pools are part of `Repr`, and no two are the same. */
    lemma Owns()
      requires Valid()
      ensures Founded() && pools.Distinct() && store.pool !in pools.Allocators()
      ensures pools.descriptors in Repr && pools.descriptors.freeList in Repr && pools.pointers in Repr
      ensures pools.pointers.freeList in Repr
      ensures pools.resources in Repr && pools.resources.freeList in Repr && pools.queues in Repr
      ensures pools.queues.freeList in Repr
    {
      hide Housed, BlockStore.Valid, PoolAllocator.Valid;
    }

    lemma OwnsStore()
      requires Founded()
      ensures store in Repr && store.pool in Repr && store.Footprint() <= Repr && this !in store.Footprint()
      ensures pools.Footprint() !! store.Footprint()
    {
      hide BlockStore.Valid, PoolAllocator.Valid;
    }

    lemma Stored()
      requires Founded()
      ensures store.Valid() && store.Apart(heads)
    {
      hide BlockStore.Valid, PoolAllocator.Valid;
    }

    /** What is listed under a name. */
    lemma Shows(id: int)
      requires Valid()
      ensures Res().Keys == slots.Keys
      ensures id in slots ==> Res()[id].rtype == slots[id].rtype && Res()[id].ptrs == slots[id].ptrs
      ensures id in slots ==> slots[id].home.block < MAX_NUM_RESOURCES && match slots[id].home
        case InResources(b) => Res()[id].kind.Plain? && b !in pools.resources.free
        case InQueues(b) => Res()[id].kind.Queue? && Res()[id].kind.block == b
    {
      hide Founded, BlockStore.Contents;
      assert id in slots ==> HousedAt(slots[id], heads, pools.resources.free);
    }

    // ---------- lookups ----------

    /** ResourceList_byId. */
    method ById(id: int) returns (found: bool)
      ensures found <==> id in order
    {
      for i := 0 to |order|
        invariant id !in order[..i]
      {
        if order[i] == id {
          return true;
        }
      }
      assert order[..|order|] == order;
      return false;
    }

    /** DescriptorList_byFd. */
    method ByFd(ds: seq<nat>, fd: int) returns (d: Option<nat>)
      requires forall x <- ds :: x in desc
      ensures d == R.ByFd(desc, ds, fd)
    {
      for i := 0 to |ds|
        invariant R.ByFd(desc, ds, fd) == R.ByFd(desc, ds[i..], fd)
      {
        assert ds[i..][0] == ds[i] && ds[i..][1..] == ds[i + 1..];
        if desc[ds[i]].fd == fd {
          return Some(ds[i]);
        }
      }
      return None;
    }

    // ---------- opening ----------

    /** Descriptor_alloc: null when the pool is empty. */
    method AllocDescriptor(pid: nat, fd: int, id: int) returns (d: Option<nat>)
      requires Valid()
      modifies this`desc, pools.descriptors`size, pools.descriptors`firstIdx, pools.descriptors`free
      modifies pools.descriptors.freeList
      ensures Valid() && Res() == old(Res())
      ensures if old(pools.descriptors.free) == [] then d == None && desc == old(desc) && pools.descriptors.free == []
        else
          && d == Some(old(pools.descriptors.free)[0]) && pools.descriptors.free == old(pools.descriptors.free)[1..]
          && desc == old(desc)[d.value := R.Desc(pid, fd, id, 0)]
    {
      hide Founded, Res, Housed;
      Owns();
      d := Take(pools.descriptors);
      if d.Some? {
        desc := desc[d.value := R.Desc(pid, fd, id, 0)];
      }
    }

    /** DescriptorPtr_alloc, which nothing checks for null. */
    method AllocPtr(d: nat) returns (q: nat)
      requires Valid() && pools.pointers.free != []
      modifies this`dptr, pools.pointers`size, pools.pointers`firstIdx, pools.pointers`free, pools.pointers.freeList
      ensures Valid() && Res() == old(Res())
      ensures q == old(pools.pointers.free)[0] && pools.pointers.free == old(pools.pointers.free)[1..]
      ensures dptr == old(dptr)[q := d]
    {
      hide Founded, Res, Housed;
      Owns();
      var r := Take(pools.pointers);
      q := r.value;
      dptr := dptr[q := d];
    }

    /** Links the new descriptor `d` with a fresh entry of the resource's list and uses up its fd. */
    method Link(pid: nat, id: int, d: nat)
      requires Valid() && pid in files && id in slots && d in desc && pools.pointers.free != []
      modifies this`desc, this`dptr, this`files, this`slots
      modifies pools.pointers`size, pools.pointers`firstIdx, pools.pointers`free, pools.pointers.freeList
      ensures Valid() && pools.pointers.free == old(pools.pointers.free)[1..]
      ensures dptr == old(dptr[pools.pointers.free[0] := d])
      ensures desc == old(desc[d := desc[d].(ptr := pools.pointers.free[0])])
      ensures files == old(files)[pid := Opened(old(files)[pid], d)]
      ensures id in old(Res())
      ensures Res() == old(Res()[id := Res()[id].(ptrs := Res()[id].ptrs + [pools.pointers.free[0]])])
    {
      hide Founded, Res, Housed;
      Owns();
      Shows(id);
      files := files[pid := files[pid].(lastFd := files[pid].lastFd + 1)];
      var q := AllocPtr(d);
      files := files[pid := files[pid].(descs := files[pid].descs + [d])];
      desc := desc[d := desc[d].(ptr := q)];
      SetPtrs(id, slots[id].ptrs + [q]);
    }

    /** The common end of the two open calls. */
    method OpenExisting(pid: nat, id: int, rtype: int, mode: int) returns (code: int)
      requires Valid() && pid in View().files && (forall i <- View().order :: i in View().res)
      requires View().descPool != [] ==> View().ptrPool != []
      modifies this, Repr
      ensures Valid() && Repr == old(Repr)
      ensures R.Outcome(View(), code) == old(R.OpenExisting(View(), pid, id, rtype, mode))
    {
      hide Valid, Res, R.Link;
      Shows(id);
      var found := ById(id);
      if !found || slots[id].rtype != rtype {
        return DSOS_ERESOURCEOPEN;
      }
      if R.HasExcl(mode) && |slots[id].ptrs| != 0 {
        return DSOS_ERESOURCENOEXCL;
      }
      code := OpenListed(pid, id);
    }

    /** A descriptor for the resource, if there is one. */
    method OpenListed(pid: nat, id: int) returns (code: int)
      requires Valid() && pid in View().files && id in slots && id in View().res
      requires View().descPool != [] ==> View().ptrPool != []
      modifies this, Repr
      ensures Valid() && Repr == old(Repr)
      ensures code == if old(pools.descriptors.free) == [] then DSOS_ERESOURCENOFD else old(files[pid].lastFd)
      ensures View() == if old(pools.descriptors.free) == [] then old(View()) else old(R.Link(View(), pid, id))
    {
      hide Valid, Res, R.Link, Opened;
      Owns();
      if View().descPool != [] {
        LinkIs(View(), pid, id);
      }
      code := NewDescriptor(pid, id);
    }

    method NewDescriptor(pid: nat, id: int) returns (code: int)
      requires Valid() && pid in files && id in slots && (pools.descriptors.free != [] ==> pools.pointers.free != [])
      modifies this`desc, this`dptr, this`files, this`slots
      modifies pools.descriptors`size, pools.descriptors`firstIdx, pools.descriptors`free, pools.descriptors.freeList
      modifies pools.pointers`size, pools.pointers`firstIdx, pools.pointers`free, pools.pointers.freeList
      ensures Valid() && id in old(Res())
      ensures old(pools.descriptors.free) == [] ==>
        && code == DSOS_ERESOURCENOFD && pools.descriptors.free == [] && pools.pointers.free == old(pools.pointers.free)
        && desc == old(desc) && dptr == old(dptr) && files == old(files) && Res() == old(Res())
      ensures old(pools.descriptors.free) != [] ==>
        var d, q := old(pools.descriptors.free)[0], old(pools.pointers.free)[0];
        && code == old(files[pid].lastFd)
        && pools.descriptors.free == old(pools.descriptors.free)[1..]
        && pools.pointers.free == old(pools.pointers.free)[1..]
        && desc == old(desc)[d := R.Desc(pid, code, id, 0)][d := R.Desc(pid, code, id, q)] && dptr == old(dptr)[q := d]
        && files == old(files)[pid := Opened(old(files)[pid], d)]
        && Res() == old(Res()[id := Res()[id].(ptrs := Res()[id].ptrs + [q])])
    {
      hide Valid, Res, Opened;
      Owns();
      Shows(id);
      var des := AllocDescriptor(pid, files[pid].lastFd, id);
      if des.None? {
        return DSOS_ERESOURCENOFD;
      }
      code := files[pid].lastFd;
      Link(pid, id, des.value);
    }

    /** internal_openResource. */
    method OpenResource(pid: nat, id: int, rtype: int, mode: int) returns (code: int)
      requires Valid() && R.OpenDefined(View(), pid, id, rtype, mode)
      modifies this, Repr
      ensures Valid() && Repr == old(Repr)
      ensures R.Outcome(View(), code) == old(R.OpenResource(View(), pid, id, rtype, mode))
    {
      hide Valid, Res, R.OpenExisting, MakePlain;
      OpenResourceIs(View(), pid, id, rtype, mode);
      if R.HasCreate(mode) {
        var found := ById(id);
        if found {
          return DSOS_ERESOURCECREATE;
        }
        NewPlain(id, rtype);
      }
      code := OpenExisting(pid, id, rtype, mode);
    }

    method NewPlain(id: int, rtype: int)
      requires Valid() && View().resourceFree > 0
      modifies this, Repr
      ensures Valid() && Repr == old(Repr) && View() == old(MakePlain(View(), id, rtype))
    {
      hide Valid, Res;
      Owns();
      AllocResource(id, rtype);
    }

    /** Resource_alloc, and its insertion in resources_list. */
    method AllocResource(id: int, rtype: int)
      requires Valid() && pools.resources.free != []
      modifies this`slots, this`order, pools.resources`size, pools.resources`firstIdx, pools.resources`free
      modifies pools.resources.freeList
      ensures Valid() && Res() == old(Res())[id := R.Resource(rtype, [], R.Plain)]
      ensures |pools.resources.free| == |old(pools.resources.free)| - 1 && order == old(order) + [id]
    {
      hide Founded, BlockStore.Contents, NoDup;
      Owns();
      ghost var free := pools.resources.free;
      var block := Take(pools.resources);
      var slot := Slot(rtype, [], InResources(block.value));
      BlockTaken(slots, id, slot, heads, pools.queues.free, free);
      Stored();
      ShownAt(slots, store.Contents(heads), id, slot);
      slots := slots[id := slot];
      order := order + [id];
    }

    /** internal_mqOpen. */
    method MqOpen(pid: nat, id: int, rtype: int, mode: int) returns (code: int)
      requires Valid() && R.MqOpenDefined(View(), pid, id, rtype, mode)
      modifies this, Repr
      ensures Valid() && fresh(Repr - old(Repr))
      ensures R.Outcome(View(), code) == old(R.MqOpen(View(), pid, id, rtype, mode))
    {
      hide R.OpenResource, R.MqOpenFound, Valid, View;
      if rtype != DSOS_MQ {
        R.OpenResourceShape(View(), pid, id, rtype, mode);
        code := OpenResource(pid, id, rtype, mode);
      }
      code := MqOpenFound(pid, id, rtype, mode);
    }

    /** The rest of it, from the lookup on. */
    method MqOpenFound(pid: nat, id: int, rtype: int, mode: int) returns (code: int)
      requires Valid() && pid in View().files && (forall i <- View().order :: i in View().res)
      requires View().descPool != [] ==> View().ptrPool != []
      requires mode == DSOS_CREATE && id !in View().order ==> View().resourceFree > 0 && View().queuePool != []
      modifies this, Repr
      ensures Valid() && fresh(Repr - old(Repr))
      ensures R.Outcome(View(), code) == old(R.MqOpenFound(View(), pid, id, rtype, mode))
    {
      hide Valid, Res, R.OpenExisting, R.MakeQueue;
      MakeQueueShape(View(), id);
      var found := ById(id);
      if mode == DSOS_CREATE {
        if found {
          return DSOS_ERESOURCECREATE;
        }
        NewQueue(id);
      }
      code := OpenExisting(pid, id, rtype, mode);
    }

    method NewQueue(id: int)
      requires Valid() && View().queuePool != [] && View().resourceFree > 0
      modifies this, Repr
      ensures Valid() && fresh(Repr - old(Repr)) && View() == old(R.MakeQueue(View(), id))
    {
      hide Valid, Res, EmptyQueue, R.MakeQueue;
      MakeQueueIs(View(), id);
      Owns();
      OwnsStore();
      AllocQueue(id);
    }

    /** MessageQueue_alloc, and its insertion in resources_list: the Resource block is only copied, the head starts
        empty, num_msg keeps whatever the block held. */
    method AllocQueue(id: int)
      requires Valid() && pools.queues.free != [] && pools.resources.free != []
      modifies this`order, this`heads, this`slots, this`queuesMade, this`Repr, store`lists
      modifies pools.queues`size, pools.queues`firstIdx, pools.queues`free, pools.queues.freeList
      modifies pools.resources`size, pools.resources`firstIdx, pools.resources`free, pools.resources.freeList
      ensures Valid() && fresh(Repr - old(Repr))
      ensures pools.queues.free == old(pools.queues.free)[1..]
      ensures |pools.resources.free| == |old(pools.resources.free)| - 1
      ensures queuesMade == old(queuesMade) + 1 && order == old(order) + [id]
      ensures Res() == old(Res()[id := EmptyQueue(pools.queues.free[0])])
    {
      hide Founded, Housed, Res, NoDup;
      Owns();
      ghost var free, unused := pools.queues.free, pools.resources.free;
      var block := Take(pools.queues);
      var copied := Take(pools.resources);
      HousedTails(slots, heads, free, unused);
      SetUpHead(id, block.value, free);
      queuesMade := queuesMade + 1;
      order := order + [id];
    }

    /** The queue block just taken is set up with an empty list. */
    method SetUpHead(id: int, block: nat, ghost free: seq<nat>)
      requires Founded() && Indexed(desc, dptr) && block < MAX_NUM_RESOURCES
      requires free != [] && block == free[0] && pools.queues.free == free[1..] && NoDup(free)
      requires Housed(slots, heads, free, pools.resources.free)
      modifies this`heads, this`slots, this`Repr, store`lists
      ensures Valid() && fresh(Repr - old(Repr))
      ensures Res() == old(Res())[id := EmptyQueue(block)]
    {
      hide Founded, BlockStore.Contents, Housed, Shown, NoDup;
      var slot := Slot(DSOS_MQ, [], InQueues(block));
      Stored();
      FreeHasNoHead(block, free);
      ghost var contents := store.Contents(heads);
      var head := PlantHead(block);
      QueueTaken(slots, id, slot, old(heads), free, pools.resources.free, contents, head);
      Stored();
      slots := slots[id := slot];
    }

    lemma FreeHasNoHead(block: nat, free: seq<nat>)
      requires Housed(slots, heads, free, pools.resources.free) && block in free
      ensures block !in heads
    {
    }

    /** List_init of the head in a queue block. */
    method PlantHead(block: nat) returns (head: Queue)
      requires Founded() && block !in heads
      modifies this`heads, this`Repr, store`lists
      ensures Founded() && fresh(Repr - old(Repr)) && heads == old(heads)[block := head]
      ensures store.Contents(heads) == old(store.Contents(heads))[block := []]
    {
      hide BlockStore.Valid, BlockStore.Contents, BlockStore.Apart, PoolSet.Valid, PoolSet.Footprint, Based;
      OwnsStore();
      head := new ListHead<int>();
      store.AddHead(heads, block, head);
      heads, Repr := heads[block := head], Repr + {head};
    }

    // ---------- closing ----------

    /** Takes descriptor `d` off both lists and frees both blocks. */
    method Unlinked(pid: nat, d: nat)
      requires Valid() && pid in files && NoDup(files[pid].descs) && d in files[pid].descs
      requires d in desc && desc[d].ptr in dptr && d !in pools.descriptors.free && desc[d].ptr !in pools.pointers.free
      requires desc[d].rid in slots && NoDup(slots[desc[d].rid].ptrs) && desc[d].ptr in slots[desc[d].rid].ptrs
      modifies this, Repr
      ensures Valid() && Repr == old(Repr) && View() == old(R.Unlinked(View(), pid, d))
    {
      hide NoDup, Valid, Res, Minus;
      Owns();
      Shows(desc[d].rid);
      var id, q := desc[d].rid, desc[d].ptr;
      Detach(pid, d, id, q);
      FreePair(d, q);
    }

    /** List_detach on both lists. */
    method Detach(pid: nat, d: nat, id: int, q: nat)
      requires Valid() && pid in files && NoDup(files[pid].descs) && d in files[pid].descs
      requires id in slots && NoDup(slots[id].ptrs) && q in slots[id].ptrs
      modifies this`files, this`slots
      ensures Valid() && files == old(files[pid := files[pid].(descs := Minus(files[pid].descs, [d]))])
      ensures id in old(Res()) && Res() == old(Res()[id := Res()[id].(ptrs := Minus(Res()[id].ptrs, [q]))])
    {
      hide NoDup, Valid, Res, Minus;
      var f, ptrs := files[pid], slots[id].ptrs;
      RemovedAtIsMinus(f.descs, d);
      files := files[pid := f.(descs := RemovedAt(f.descs, IndexOf(f.descs, d)))];
      RemovedAtIsMinus(ptrs, q);
      Shows(id);
      SetPtrs(id, RemovedAt(ptrs, IndexOf(ptrs, q)));
    }

    /** Descriptor_free and DescriptorPtr_free. */
    method FreePair(d: nat, q: nat)
      requires Valid() && d in desc && q in dptr && d !in pools.descriptors.free && q !in pools.pointers.free
      modifies this`desc, this`dptr, pools.descriptors`size, pools.descriptors`firstIdx, pools.descriptors`free
      modifies pools.descriptors.freeList
      modifies pools.pointers`size, pools.pointers`firstIdx, pools.pointers`free, pools.pointers.freeList
      ensures Valid() && Res() == old(Res())
      ensures desc == old(desc) - {d} && pools.descriptors.free == [d] + old(pools.descriptors.free)
      ensures dptr == old(dptr) - {q} && pools.pointers.free == [q] + old(pools.pointers.free)
    {
      hide Founded, Res, Housed;
      Owns();
      Give(pools.descriptors, d);
      Give(pools.pointers, q);
      desc, dptr := desc - {d}, dptr - {q};
    }

    /** internal_closeResource, which internal_mqClose calls. */
    method Close(pid: nat, fd: int) returns (code: int)
      requires Valid() && J.TableInv(View()) && R.WellLinked(View()) && pid in View().files
      modifies this, Repr
      ensures Valid() && Repr == old(Repr) && R.Outcome(View(), code) == old(R.Close(View(), pid, fd))
    {
      hide J.TableInv, Valid, Res;
      var d := ByFd(files[pid].descs, fd);
      if d.None? {
        return DSOS_ERESOURCECLOSE;
      }
      Linked(View(), pid, d.value);
      Owns();
      Shows(desc[d.value].rid);
      Unlinked(pid, d.value);
      return 0;
    }

    /** The descriptor loop of internal_exit. */
    method CloseAll(pid: nat)
      requires Valid() && J.TableInv(View()) && R.WellLinked(View()) && pid in View().files
      requires NoDup(View().files[pid].descs)
      modifies this, Repr
      ensures Valid() && Repr == old(Repr) && View() == old(R.CloseAll(View(), pid, View().files[pid].descs))
    {
      hide J.TableInv, NoDup, R.Unlinked;
      while files[pid].descs != []
        invariant Valid() && Repr == old(Repr) && J.TableInv(View()) && R.WellLinked(View()) && pid in files
        invariant NoDup(files[pid].descs)
        invariant R.CloseAll(View(), pid, files[pid].descs) == old(R.CloseAll(View(), pid, View().files[pid].descs))
        decreases |files[pid].descs|
      {
        var d := files[pid].descs[0];
        Linked(View(), pid, d);
        FirstClosed(View(), pid);
        Unlinked(pid, d);
      }
    }

    // ---------- destroying ----------

    /** List_detach on resources_list. */
    method DetachResource(id: int)
      requires id in order && NoDup(order)
      modifies this`order
      ensures order == Minus(old(order), [id])
    {
      RemovedAtIsMinus(order, id);
      order := RemovedAt(order, IndexOf(order, id));
    }

    /** internal_destroyResource. */
    method Destroy(id: int) returns (code: int)
      requires Valid() && R.WellLinked(View()) && NoDup(View().order)
      modifies this, Repr
      ensures Valid() && Repr == old(Repr) && R.Outcome(View(), code) == old(R.Destroy(View(), id))
    {
      hide NoDup, Minus, Valid, Res, R.WellLinked, R.Destroy, Freed;
      Shows(id);
      Owns();
      DestroyIs(View(), id);
      var found := ById(id);
      if !found {
        return DSOS_ERESOURCECLOSE;
      }
      if |slots[id].ptrs| != 0 {
        return DSOS_ERESOURCEINUSE;
      }
      Discard(id);
      return 0;
    }

    method Discard(id: int)
      requires Valid() && id in slots && id in order && NoDup(order) && id in View().res
      modifies this`order, this`slots, this`stranded, this`lostMessages
      modifies pools.resources`size, pools.resources`firstIdx, pools.resources`free, pools.resources.freeList
      ensures Valid() && View() == old(Freed(View().(order := Minus(View().order, [id])), id))
    {
      hide NoDup, Minus, Valid, Res, Freed;
      DetachResource(id);
      FreeResource(id);
    }

    /** Resource_free: refused for a queue, whose block and messages are then out of reach. */
    method FreeResource(id: int)
      requires Valid() && id in slots && id in View().res
      modifies this`slots, this`stranded, this`lostMessages
      modifies pools.resources`size, pools.resources`firstIdx, pools.resources`free, pools.resources.freeList
      ensures Valid() && View() == old(Freed(View(), id))
    {
      hide Valid, View, Freed;
      if slots[id].home.InResources? {
        ReleaseResource(id);
      } else {
        StrandQueue(id);
      }
    }

    method ReleaseResource(id: int)
      requires Valid() && id in slots && slots[id].home.InResources? && id in View().res
      modifies this`slots
      modifies pools.resources`size, pools.resources`firstIdx, pools.resources`free, pools.resources.freeList
      ensures Valid() && View() == old(Freed(View(), id))
    {
      hide Founded, Res, Housed;
      Owns();
      Shows(id);
      var block := slots[id].home.block;
      BlockGiven(slots, id, heads, pools.queues.free, pools.resources.free);
      DropSlot(id);
      Give(pools.resources, block);
    }

    method StrandQueue(id: int)
      requires Valid() && id in slots && slots[id].home.InQueues? && id in View().res
      modifies this`slots, this`stranded, this`lostMessages
      modifies pools.resources`size, pools.resources`firstIdx, pools.resources`free, pools.resources.freeList
      ensures Valid() && View() == old(Freed(View(), id))
    {
      hide Founded, Housed, Res, Stranded;
      Owns();
      Shows(id);
      var block := slots[id].home.block;
      stranded, lostMessages := Stranded(stranded, Res()[id].kind), lostMessages + |Res()[id].kind.messages|;
      DropSlot(id);
      FreeCopy(block);
    }

    /** internal_mqUnlink. */
    method MqUnlink(id: int) returns (code: int)
      requires Valid() && R.UnlinkDefined(View(), id) && NoDup(View().order)
      modifies this, Repr
      ensures Valid() && Repr == old(Repr) && R.Outcome(View(), code) == old(R.MqUnlink(View(), id))
    {
      hide NoDup, Minus, Valid, Res, R.UnlinkDefined, R.MqUnlink, Unqueued;
      Shows(id);
      Owns();
      OwnsStore();
      UnlinkIs(View(), id);
      var found := ById(id);
      if !found {
        return DSOS_ERESOURCECLOSE;
      }
      if |slots[id].ptrs| != 0 {
        return DSOS_ERESOURCEINUSE;
      }
      DetachResource(id);
      FreeQueue(id);
      return 0;
    }

    /** MessageQueue_free: the leftover messages and the queue block go back to their pools. The Resource pool
        refuses the queue's copy of a Resource block, and the message pool the list head. */
    method FreeQueue(id: int)
      requires Valid() && id in slots && slots[id].home.InQueues? && id in View().res && View().res[id].kind.Queue?
      modifies this`slots, this`heads, store.Footprint()
      modifies pools.queues`size, pools.queues`firstIdx, pools.queues`free, pools.queues.freeList
      modifies pools.resources`size, pools.resources`firstIdx, pools.resources`free, pools.resources.freeList
      ensures Valid() && Repr == old(Repr) && View() == old(Unqueued(View(), id))
    {
      hide Valid, Res;
      Owns();
      OwnsStore();
      ReleaseQueue(id);
    }

    method ReleaseQueue(id: int)
      requires Valid() && id in slots && slots[id].home.InQueues?
      modifies this`slots, this`heads, store.Footprint()
      modifies pools.queues`size, pools.queues`firstIdx, pools.queues`free, pools.queues.freeList
      modifies pools.resources`size, pools.resources`firstIdx, pools.resources`free, pools.resources.freeList
      ensures Valid() && Repr == old(Repr) && id in old(Res()) && old(Res()[id].kind.Queue?)
      ensures Res() == old(Res()) - {id} && pools.queues.free == [old(Res()[id].kind.block)] + old(pools.queues.free)
      ensures pools.resources.free == old(pools.resources.free)
      ensures |store.pool.free| == old(|store.pool.free| + |Res()[id].kind.messages|)
    {
      hide Founded, Housed, Res, NoDup;
      Owns();
      OwnsStore();
      Shows(id);
      var block := slots[id].home.block;
      FreeCopy(block);
      QueueGiven(slots, id, heads, pools.queues.free, pools.resources.free);
      FreeMessages(id, block);
      Give(pools.queues, block);
    }

    /** The leftover messages are freed and the queue's head is no longer in use. */
    method FreeMessages(id: int, block: nat)
      requires Valid() && id in slots && slots[id].home == InQueues(block) && block < MAX_NUM_RESOURCES
      modifies this`slots, this`heads, store.Footprint()
      ensures Founded() && slots == old(slots) - {id} && heads == old(heads) - {block}
      ensures Res() == old(Res()) - {id} && id in old(Res()) && old(Res()[id].kind.Queue?)
      ensures |store.pool.free| == old(|store.pool.free| + |Res()[id].kind.messages|)
    {
      hide Founded, BlockStore.Contents, Housed, Shown;
      Stored();
      OwnsStore();
      Shows(id);
      ShowsMessages(id, []);
      ShownWithout(slots, id, heads, pools.queues.free, pools.resources.free, store.Contents(heads));
      Drain(block);
      Stored();
      slots := slots - {id};
    }

    method Drain(block: nat)
      requires Founded() && block in heads && block < MAX_NUM_RESOURCES
      modifies this`heads, store.Footprint()
      ensures Founded() && heads == old(heads) - {block} && block in old(store.Contents(heads))
      ensures store.Contents(heads) == old(store.Contents(heads)) - {block}
      ensures |store.pool.free| == old(|store.pool.free| + |store.Contents(heads)[block]|)
    {
      hide BlockStore.Valid, BlockStore.Contents, BlockStore.Apart, PoolSet.Valid, Disjoint, Times;
      OwnsStore();
      Headed(block);
      WithinQueue(pools.layout, block, pools.layout.headOffset);
      store.DrainBlock(heads, block, pools.layout.InQueue(block, pools.layout.headOffset));
      heads := heads - {block};
    }

    lemma Headed(block: nat)
      requires Founded() && block in heads
      ensures heads[block] in store.lists && block in store.Contents(heads)
    {
      hide BlockStore.Valid, PoolSet.Valid;
    }

    // ---------- messages ----------

    /** The descriptor lookup of send and receive. */
    method Target(pid: nat, fd: int) returns (id: Option<int>)
      requires Valid() && R.WellLinked(View()) && pid in View().files
      ensures id == old(R.Target(View(), pid, fd))
    {
      hide Valid, Res;
      var d := ByFd(files[pid].descs, fd);
      return if d.None? then None else Some(desc[d.value].rid);
    }

    /** The tests of num_msg against its bounds. */
    method IsFull(id: int) returns (b: bool)
      requires Valid() && R.IsQueue(View(), id)
      ensures b == R.Full(View(), id)
    {
      hide Valid, Res;
      Shows(id);
      return numMsg[slots[id].home.block] == MQ_MAX_MSG_SIZE;
    }

    method IsEmpty(id: int) returns (b: bool)
      requires Valid() && R.IsQueue(View(), id)
      ensures b == R.Empty(View(), id)
    {
      hide Valid, Res;
      Shows(id);
      return numMsg[slots[id].home.block] == 0;
    }

    /** The message is appended to the queue's list, in a block from the pool, and counted. */
    method Enqueue(id: int, msg: int)
      requires Valid() && R.IsQueue(View(), id) && View().messageFree > 0
      modifies this, Repr
      ensures Valid() && Repr == old(Repr) && View() == old(R.Enqueue(View(), id, msg))
    {
      hide Valid, Res, Sent, CountedUp, R.Enqueue;
      Owns();
      OwnsStore();
      Shows(id);
      EnqueueIs(View(), id, msg);
      var block := slots[id].home.block;
      Post(id, block, msg);
      CountUp(block);
    }

    method CountUp(block: nat)
      requires block in numMsg
      modifies this`numMsg
      ensures numMsg == CountedUp(old(numMsg), block)
    {
      numMsg := numMsg[block := numMsg[block] + 1];
    }

    method Post(id: int, block: nat, msg: int)
      requires Valid() && id in slots && slots[id].home == InQueues(block) && |store.pool.free| > 0
      modifies store.Footprint()
      ensures Valid() && Repr == old(Repr) && id in old(Res()) && old(Res()[id].kind.Queue?)
      ensures Res() == old(Res()[id := Sent(Res()[id], msg)])
      ensures |store.pool.free| == |old(store.pool.free)| - 1
    {
      hide BlockStore.Valid, BlockStore.Contents, BlockStore.Apart, PoolSet.Valid, Based, Housed, Shown, Refilled;
      OwnsStore();
      Shows(id);
      ShowsMessages(id, Res()[id].kind.messages + [msg]);
      store.AddTo(heads, block, msg);
    }

    /** The texts of a queue are those its list links, and nobody else's. */
    lemma ShowsMessages(id: int, texts: seq<int>)
      requires Valid() && id in slots && slots[id].home.InQueues?
      ensures var block, c := slots[id].home.block, store.Contents(heads);
        && block in heads && heads[block] in store.lists && block in c && Res()[id].kind == R.Queue(block, c[block])
        && Shown(slots, c[block := texts]) == Res()[id := Refilled(Res()[id], texts)]
    {
      hide BlockStore.Valid, PoolAllocator.Valid, NoDup;
      var block, c := slots[id].home.block, store.Contents(heads);
      var a, b := Shown(slots, c[block := texts]), Res()[id := Refilled(Res()[id], texts)];
      forall i | i in slots ensures a[i] == b[i] {
        assert HousedAt(slots[i], heads, pools.resources.free);
      }
    }

    /** The first message leaves the queue's list and its block is freed. */
    method Dequeue(id: int) returns (msg: int)
      requires Valid() && R.IsQueue(View(), id) && R.Count(View(), id) > 0 && R.Messages(View(), id) != []
      modifies this, Repr
      ensures Valid() && Repr == old(Repr) && View() == old(R.Dequeue(View(), id))
      ensures msg == old(R.Messages(View(), id)[0])
    {
      hide BlockStore.Valid, BlockStore.Contents, BlockStore.Apart, PoolSet.Valid, Based, Housed, Shown;
      OwnsStore();
      Shows(id);
      var block := slots[id].home.block;
      ShowsMessages(id, R.Messages(View(), id)[1..]);
      numMsg := numMsg[block := numMsg[block] - 1];
      msg := store.TakeFrom(heads, block);
    }

    /** The calls that only open, close or destroy, made by process `me`. */
    method Handle(me: nat, e: Event) returns (code: int)
      requires Valid() && J.TableInv(View()) && OutcomeDefined(View(), me, e)
      modifies this, Repr
      ensures Valid() && fresh(Repr - old(Repr))
      ensures R.Outcome(View(), code) == old(OutcomeOf(View(), me, e))
    {
      hide J.TableInv, NoDup, View, Valid, R.WellLinked, R.OpenResource, R.MqOpen, R.Close, R.Destroy, R.MqUnlink;
      NamesAreDistinct(View());
      match e {
        case OpenResource(id, rtype, mode) => code := OpenResource(me, id, rtype, mode);
        case CloseResource(fd) => code := Close(me, fd);
        case DestroyResource(id) => code := Destroy(id);
        case MqOpen(id, rtype, mode) => code := MqOpen(me, id, rtype, mode);
        case MqClose(fd) => code := Close(me, fd);
        case MqUnlink(id) => code := MqUnlink(id);
      }
    }

    // ---------- processes ----------

    method NewProcess(pid: nat)
      requires Valid()
      modifies this`files
      ensures Valid() && View() == old(R.NewProcess(View(), pid))
    {
      hide Valid, Res;
      files := files[pid := R.Files(0, [])];
    }

    method FreeProcess(pid: nat)
      requires Valid()
      modifies this`files
      ensures Valid() && View() == old(R.FreeProcess(View(), pid))
    {
      hide Valid, Res;
      files := files - {pid};
    }
  }

  // ---------- what the blocks show ----------

  /** Every entry has a block of its own that is not free, and every queue block in use a head. */
  ghost predicate Housed(slots: map<int, Slot>, heads: map<nat, Queue>, queuesFree: seq<nat>, resourcesFree: seq<nat>) {
    && (forall id <- slots :: HousedAt(slots[id], heads, resourcesFree))
    && (forall i <- slots, j <- slots :: i != j ==> slots[i].home != slots[j].home)
    && (forall b <- queuesFree :: b !in heads)
  }

  ghost predicate HousedAt(slot: Slot, heads: map<nat, Queue>, resourcesFree: seq<nat>) {
    && slot.home.block < MAX_NUM_RESOURCES
    && if slot.home.InQueues? then slot.home.block in heads else slot.home.block !in resourcesFree
  }

  /** Descriptors and their entries are blocks of their pools. */
  ghost predicate Indexed(desc: map<nat, R.Desc>, dptr: map<nat, nat>) {
    (forall d <- desc :: d < MAX_NUM_RESOURCES) && forall q <- dptr :: q < MAX_NUM_RESOURCES
  }

  ghost function Shown(slots: map<int, Slot>, contents: map<nat, seq<int>>): map<int, R.Resource> {
    map id | id in slots :: ShownSlot(slots[id], contents)
  }

  ghost function ShownSlot(slot: Slot, contents: map<nat, seq<int>>): R.Resource {
    R.Resource(slot.rtype, slot.ptrs, match slot.home
      case InResources(_) => R.Plain
      case InQueues(b) => R.Queue(b, if b in contents then contents[b] else []))
  }

  lemma ShownAt(slots: map<int, Slot>, contents: map<nat, seq<int>>, id: int, slot: Slot)
    ensures Shown(slots[id := slot], contents) == Shown(slots, contents)[id := ShownSlot(slot, contents)]
    ensures Shown(slots - {id}, contents) == Shown(slots, contents) - {id}
  {
  }

  lemma ShownWithout(slots: map<int, Slot>, id: int, heads: map<nat, Queue>, queuesFree: seq<nat>,
                     resourcesFree: seq<nat>, contents: map<nat, seq<int>>)
    requires Housed(slots, heads, queuesFree, resourcesFree) && id in slots && slots[id].home.InQueues?
    ensures Shown(slots - {id}, contents - {slots[id].home.block}) == Shown(slots, contents) - {id}
  {
    var m, n := Shown(slots - {id}, contents - {slots[id].home.block}), Shown(slots, contents) - {id};
    forall i | i in slots && i != id ensures m[i] == n[i] {
    }
  }

  ghost function MakePlain(t: R.Table, id: int, rtype: int): R.Table
    requires t.resourceFree > 0
  {
    R.AddResource(t, id, R.Resource(rtype, [], R.Plain)).(resourceFree := t.resourceFree - 1)
  }

  lemma OpenResourceIs(t: R.Table, pid: nat, id: int, rtype: int, mode: int)
    requires R.OpenDefined(t, pid, id, rtype, mode)
    ensures R.HasCreate(mode) && id !in t.order ==>
      var u := MakePlain(t, id, rtype);
      && u.files == t.files && u.descPool == t.descPool && u.ptrPool == t.ptrPool && (forall i <- u.order :: i in u.res)
      && R.OpenResource(t, pid, id, rtype, mode) == R.OpenExisting(u, pid, id, rtype, mode)
  {
    hide R.OpenExisting;
  }

  /** What destroying makes of a table without the entry on its list. */
  ghost function Freed(t: R.Table, id: int): R.Table
    requires id in t.res
  {
    var k := t.res[id].kind;
    if k.Plain? then t.(res := t.res - {id}, resourceFree := t.resourceFree + 1)
    else t.(res := t.res - {id}, stranded := Stranded(t.stranded, k), lostMessages := t.lostMessages + |k.messages|)
  }

  ghost function Stranded(stranded: map<nat, seq<int>>, k: R.Kind): map<nat, seq<int>>
    requires k.Queue?
  {
    stranded[k.block := k.messages]
  }

  ghost function Unqueued(t: R.Table, id: int): R.Table
    requires id in t.res && t.res[id].kind.Queue?
  {
    t.(res := t.res - {id}, queuePool := [t.res[id].kind.block] + t.queuePool,
       messageFree := t.messageFree + |t.res[id].kind.messages|)
  }

  lemma DestroyIs(t: R.Table, id: int)
    requires R.WellLinked(t)
    ensures id in t.order ==> id in t.res
    ensures R.Destroy(t, id) ==
      if id !in t.order then R.Outcome(t, DSOS_ERESOURCECLOSE)
      else if |t.res[id].ptrs| != 0 then R.Outcome(t, DSOS_ERESOURCEINUSE)
      else R.Outcome(Freed(t.(order := Minus(t.order, [id])), id), 0)
  {
    hide Minus;
  }

  lemma UnlinkIs(t: R.Table, id: int)
    requires R.UnlinkDefined(t, id)
    ensures id in t.order ==> id in t.res && t.res[id].kind.Queue?
    ensures R.MqUnlink(t, id) ==
      if id !in t.order then R.Outcome(t, DSOS_ERESOURCECLOSE)
      else if |t.res[id].ptrs| != 0 then R.Outcome(t, DSOS_ERESOURCEINUSE)
      else R.Outcome(Unqueued(t.(order := Minus(t.order, [id])), id), 0)
  {
    hide Minus;
  }

  lemma MakeQueueShape(t: R.Table, id: int)
    requires forall i <- t.order :: i in t.res
    ensures t.queuePool != [] && t.resourceFree > 0 ==>
      var u := R.MakeQueue(t, id);
      && u.files == t.files && u.descPool == t.descPool && u.ptrPool == t.ptrPool && forall i <- u.order :: i in u.res
  {
  }

  lemma MakeQueueIs(t: R.Table, id: int)
    requires t.queuePool != [] && t.resourceFree > 0
    ensures R.MakeQueue(t, id) == t.(order := t.order + [id], res := t.res[id := EmptyQueue(t.queuePool[0])],
      queuePool := t.queuePool[1..], resourceFree := t.resourceFree - 1, queuesMade := t.queuesMade + 1)
  {
  }

  ghost function EmptyQueue(block: nat): R.Resource {
    R.Resource(DSOS_MQ, [], R.Queue(block, []))
  }

  lemma HousedTails(slots: map<int, Slot>, heads: map<nat, Queue>, queuesFree: seq<nat>, resourcesFree: seq<nat>)
    requires Housed(slots, heads, queuesFree, resourcesFree) && resourcesFree != []
    ensures Housed(slots, heads, queuesFree, resourcesFree[1..])
  {
    forall id <- slots ensures HousedAt(slots[id], heads, resourcesFree[1..]) {
      assert HousedAt(slots[id], heads, resourcesFree);
    }
  }

  lemma BlockTaken(slots: map<int, Slot>, id: int, slot: Slot, heads: map<nat, Queue>, queuesFree: seq<nat>,
                   resourcesFree: seq<nat>)
    requires Housed(slots, heads, queuesFree, resourcesFree) && NoDup(resourcesFree) && resourcesFree != []
    requires slot.home == InResources(resourcesFree[0]) && resourcesFree[0] < MAX_NUM_RESOURCES
    ensures Housed(slots[id := slot], heads, queuesFree, resourcesFree[1..])
  {
    HousedTails(slots, heads, queuesFree, resourcesFree);
    assert OnlyAt(resourcesFree, 0);
    forall i <- slots ensures slots[i].home != slot.home {
      assert HousedAt(slots[i], heads, resourcesFree);
    }
  }

  lemma QueueTaken(slots: map<int, Slot>, id: int, slot: Slot, heads: map<nat, Queue>, queuesFree: seq<nat>,
                   resourcesFree: seq<nat>, contents: map<nat, seq<int>>, head: Queue)
    requires Housed(slots, heads, queuesFree, resourcesFree) && NoDup(queuesFree) && queuesFree != []
    requires slot.home == InQueues(queuesFree[0]) && queuesFree[0] < MAX_NUM_RESOURCES
    ensures queuesFree[0] !in heads
    ensures Housed(slots[id := slot], heads[queuesFree[0] := head], queuesFree[1..], resourcesFree)
    ensures Shown(slots[id := slot], contents[queuesFree[0] := []]) ==
      Shown(slots, contents)[id := R.Resource(slot.rtype, slot.ptrs, R.Queue(queuesFree[0], []))]
  {
    var b := queuesFree[0];
    assert OnlyAt(queuesFree, 0);
    var r := R.Resource(slot.rtype, slot.ptrs, R.Queue(b, []));
    var m, n := Shown(slots[id := slot], contents[b := []]), Shown(slots, contents)[id := r];
    forall i | i in slots ensures m[i] == n[i] && slots[i].home != slot.home {
      assert HousedAt(slots[i], heads, resourcesFree);
    }
  }

  lemma BlockGiven(slots: map<int, Slot>, id: int, heads: map<nat, Queue>, queuesFree: seq<nat>,
                   resourcesFree: seq<nat>)
    requires Housed(slots, heads, queuesFree, resourcesFree) && id in slots && slots[id].home.InResources?
    ensures Housed(slots - {id}, heads, queuesFree, [slots[id].home.block] + resourcesFree)
  {
    forall i | i in slots && i != id ensures HousedAt(slots[i], heads, [slots[id].home.block] + resourcesFree) {
      assert HousedAt(slots[i], heads, resourcesFree);
    }
  }

  lemma QueueGiven(slots: map<int, Slot>, id: int, heads: map<nat, Queue>, queuesFree: seq<nat>,
                   resourcesFree: seq<nat>)
    requires Housed(slots, heads, queuesFree, resourcesFree) && id in slots && slots[id].home.InQueues?
    ensures HousedAt(slots[id], heads, resourcesFree) && slots[id].home.block !in queuesFree
    ensures var b := slots[id].home.block; Housed(slots - {id}, heads - {b}, [b] + queuesFree, resourcesFree)
  {
    forall i | i in slots && i != id ensures HousedAt(slots[i], heads - {slots[id].home.block}, resourcesFree) {
      assert HousedAt(slots[i], heads, resourcesFree);
    }
  }

  ghost function Refilled(r: R.Resource, texts: seq<int>): R.Resource
    requires r.kind.Queue?
  {
    r.(kind := r.kind.(messages := texts))
  }

  ghost function CountedUp(numMsg: map<nat, nat>, block: nat): map<nat, nat>
    requires block in numMsg
  {
    numMsg[block := numMsg[block] + 1]
  }

  ghost function Sent(r: R.Resource, msg: int): R.Resource
    requires r.kind.Queue?
  {
    Refilled(r, r.kind.messages + [msg])
  }

  lemma EnqueueIs(t: R.Table, id: int, msg: int)
    requires R.IsQueue(t, id) && t.messageFree > 0
    ensures R.Enqueue(t, id, msg) == t.(res := t.res[id := Sent(t.res[id], msg)],
      numMsg := CountedUp(t.numMsg, t.res[id].kind.block), messageFree := t.messageFree - 1)
  {
  }

  ghost function Opened(f: R.Files, d: nat): R.Files {
    R.Files(f.lastFd + 1, f.descs + [d])
  }

  lemma LinkIs(t: R.Table, pid: nat, id: int)
    requires pid in t.files && id in t.res && t.descPool != [] && t.ptrPool != []
    ensures var d, q, fd := t.descPool[0], t.ptrPool[0], t.files[pid].lastFd;
      R.Link(t, pid, id) == t.(desc := t.desc[d := R.Desc(pid, fd, id, 0)][d := R.Desc(pid, fd, id, q)],
        descPool := t.descPool[1..], dptr := t.dptr[q := d], ptrPool := t.ptrPool[1..],
        files := t.files[pid := Opened(t.files[pid], d)], res := t.res[id := t.res[id].(ptrs := t.res[id].ptrs + [q])])
  {
    var d, q, fd := t.descPool[0], t.ptrPool[0], t.files[pid].lastFd;
    assert t.desc[d := R.Desc(pid, fd, id, 0)][d := R.Desc(pid, fd, id, q)] == t.desc[d := R.Desc(pid, fd, id, q)];
  }

  predicate OnlyTable(e: Event) {
    e.OpenResource? || e.CloseResource? || e.DestroyResource? || e.MqOpen? || e.MqClose? || e.MqUnlink?
  }

  ghost predicate OutcomeDefined(t: R.Table, me: nat, e: Event) {
    && OnlyTable(e) && R.WellLinked(t) && me in t.files
    && (e.OpenResource? ==> R.OpenDefined(t, me, e.id, e.rtype, e.mode))
    && (e.MqOpen? ==> R.MqOpenDefined(t, me, e.id, e.rtype, e.mode))
    && (e.MqUnlink? ==> R.UnlinkDefined(t, e.id))
  }

  function OutcomeOf(t: R.Table, me: nat, e: Event): R.Outcome
    requires OutcomeDefined(t, me, e)
  {
    match e
    case OpenResource(id, rtype, mode) => R.OpenResource(t, me, id, rtype, mode)
    case CloseResource(fd) => R.Close(t, me, fd)
    case DestroyResource(id) => R.Destroy(t, id)
    case MqOpen(id, rtype, mode) => R.MqOpen(t, me, id, rtype, mode)
    case MqClose(fd) => R.Close(t, me, fd)
    case MqUnlink(id) => R.MqUnlink(t, id)
  }

  lemma HandleIsOutcome(s: State, e: Event)
    requires !e.Tick? && OnlyTable(e) && CallDefined(s.ps, s.rs, e)
    ensures P.CanRun(s.ps) && OutcomeDefined(s.rs, s.ps.running.value, e)
    ensures Handle(s, e) == Returning(s.ps, OutcomeOf(s.rs, s.ps.running.value, e))
  {
    hide P.Allocated, R.WellLinked;
  }

  lemma NamesAreDistinct(t: R.Table)
    requires J.TableInv(t)
    ensures NoDup(t.order)
  {
    hide J.Owned, J.Crossed, J.Pooled, J.Queued, J.Books;
  }

  /** What close relies on: the descriptor and its entry are where they should be, once. */
  lemma Linked(t: R.Table, pid: nat, d: nat)
    requires J.TableInv(t) && R.WellLinked(t) && pid in t.files && d in t.files[pid].descs
    ensures NoDup(t.files[pid].descs) && d in t.desc && t.desc[d].rid in t.res
    ensures NoDup(t.res[t.desc[d].rid].ptrs) && t.desc[d].ptr in t.res[t.desc[d].rid].ptrs
    ensures t.desc[d].ptr in t.dptr && d !in t.descPool && t.desc[d].ptr !in t.ptrPool
  {
    hide J.Names, J.Queued, J.Books;
    assert J.Sound(pid, t.files[pid], t.desc);
    assert J.Entered(d, t.desc, t.dptr, t.res);
    assert J.Listed(t.desc[d].rid, t.res[t.desc[d].rid].ptrs, t.desc, t.dptr);
  }

  lemma FirstClosed(t: R.Table, pid: nat)
    requires J.TableInv(t) && R.WellLinked(t) && pid in t.files && NoDup(t.files[pid].descs) && t.files[pid].descs != []
    ensures var ds, u := t.files[pid].descs, R.Unlinked(t, pid, t.files[pid].descs[0]);
      && J.TableInv(u) && R.WellLinked(u) && pid in u.files && u.files[pid].descs == ds[1..] && NoDup(ds[1..])
      && R.CloseAll(u, pid, ds[1..]) == R.CloseAll(t, pid, ds)
  {
    hide J.TableInv;
    var ds := t.files[pid].descs;
    NoDupTail(ds);
    J.UnlinkedKeeps(t, pid, ds[0]);
    J.InvLinked(R.Unlinked(t, pid, ds[0]));
    MinusNothing(ds[1..], [ds[0]]);
  }
}
