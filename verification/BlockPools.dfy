/** The pools behind resources: Descriptor, DescriptorPtr, Resource and MessageQueue blocks, each a PoolAllocator
    over a static buffer of its own. */
module BlockPools {
  import opened Constants
  import opened Sequences
  import opened Pools

  /** Where the static buffers lie, how large their blocks are, and where in a queue block its list head is. */
  datatype Layout = Layout(descBuffer: int, descSize: int, ptrBuffer: int, ptrSize: int,
                           resourceBuffer: int, resourceSize: int, queueBuffer: int, queueSize: int,
                           messageBuffer: int, messageSize: int, headOffset: int)
  {
    /** Queue blocks overlap neither Resource blocks nor message blocks. */
    ghost predicate Sound() {
      && descSize > 0 && ptrSize > 0 && resourceSize > 0 && queueSize > 0 && messageSize > 0
      && 0 <= headOffset < queueSize
      && Disjoint(queueBuffer, queueSize, resourceBuffer, resourceSize)
      && Disjoint(queueBuffer, queueSize, messageBuffer, messageSize)
    }

    /** The address of a byte of queue block `block`. */
    function InQueue(block: nat, offset: int): int {
      queueBuffer + Times(block, queueSize) + offset
    }
  }

  /** Two buffers of 1024 blocks each. */
  ghost predicate Disjoint(a: int, aSize: int, b: int, bSize: int) {
    a + Times(MAX_NUM_RESOURCES, aSize) <= b || b + Times(MAX_NUM_RESOURCES, bSize) <= a
  }

  class PoolSet {
    const descriptors: PoolAllocator
    const pointers: PoolAllocator
    const resources: PoolAllocator
    const queues: PoolAllocator
    const layout: Layout

    ghost function Allocators(): set<object> {
      {descriptors, pointers, resources, queues}
    }

    ghost function Footprint(): set<object>
      reads descriptors`freeList, pointers`freeList, resources`freeList, queues`freeList
    {
      Allocators() + {descriptors.freeList, pointers.freeList, resources.freeList, queues.freeList}
    }

    ghost predicate Valid()
      reads descriptors, pointers, resources, queues
      reads descriptors.freeList, pointers.freeList, resources.freeList, queues.freeList
    {
      && layout.Sound() && Distinct() && Separate()
      && Pooled(descriptors, layout.descBuffer, layout.descSize) && Pooled(pointers, layout.ptrBuffer, layout.ptrSize)
      && Pooled(resources, layout.resourceBuffer, layout.resourceSize)
      && Pooled(queues, layout.queueBuffer, layout.queueSize)
    }

    ghost predicate Distinct() {
      && descriptors != pointers && descriptors != resources && descriptors != queues
      && pointers != resources && pointers != queues && resources != queues
    }

    ghost predicate Separate()
      reads descriptors`freeList, pointers`freeList, resources`freeList, queues`freeList
    {
      && descriptors.freeList != pointers.freeList && descriptors.freeList != resources.freeList
      && descriptors.freeList != queues.freeList && pointers.freeList != resources.freeList
      && pointers.freeList != queues.freeList && resources.freeList != queues.freeList
    }

    /** A pool of 1024 blocks over its static buffer. */
    ghost predicate Pooled(p: PoolAllocator, buffer: int, size: int)
      reads p, p.freeList
    {
      p.Valid() && p.buffer == buffer && p.itemSize == size && p.sizeMax == MAX_NUM_RESOURCES
    }

    /** Descriptor_init, Resource_init and the first half of MessageQueue_init. */
    constructor (layout: Layout)
      requires layout.Sound()
      ensures Valid() && fresh(Footprint()) && this.layout == layout
      ensures descriptors.free == pointers.free == resources.free == queues.free == Upto(MAX_NUM_RESOURCES)
    {
      hide PoolAllocator.Valid, Upto, Times, Disjoint;
      this.layout := layout;
      var d := Filled(layout.descBuffer, layout.descSize);
      var p := Filled(layout.ptrBuffer, layout.ptrSize);
      var r := Filled(layout.resourceBuffer, layout.resourceSize);
      var q := Filled(layout.queueBuffer, layout.queueSize);
      descriptors, pointers, resources, queues := d, p, r, q;
    }

    /** PoolAllocator_init with exactly the memory it needs. */
    static method Filled(buffer: int, size: int) returns (p: PoolAllocator)
      requires size > 0
      ensures fresh(p) && fresh(p.freeList) && p.Valid() && p.sizeMax == MAX_NUM_RESOURCES
      ensures p.buffer == buffer && p.itemSize == size && p.free == Upto(MAX_NUM_RESOURCES)
    {
      hide NoDup, Upto, Times;
      p := new PoolAllocator();
      var r := p.Init(size, MAX_NUM_RESOURCES, buffer, Times(MAX_NUM_RESOURCES, size + SIZEOF_INT));
    }

    /** getBlock on one of the four pools. */
    method Take(p: PoolAllocator) returns (idx: Option<nat>)
      requires Valid() && p in Allocators()
      modifies p`size, p`firstIdx, p`free, p.freeList
      ensures Valid() && NoDup(old(p.free))
      ensures if old(p.free) == [] then idx == None && p.free == []
        else idx == Some(old(p.free)[0]) && p.free == old(p.free)[1..] && old(p.free)[0] < MAX_NUM_RESOURCES
    {
      hide PoolAllocator.Valid, NoDup, Times, Disjoint;
      p.FreeIndices();
      assert p.free != [] ==> p.free[0] in p.free;
      idx := p.Take();
    }

    /** releaseBlock of a block in use. */
    method Give(p: PoolAllocator, idx: nat)
      requires Valid() && p in Allocators() && idx < MAX_NUM_RESOURCES && idx !in p.free
      modifies p`size, p`firstIdx, p`free, p.freeList
      ensures Valid() && p.free == [idx] + old(p.free)
    {
      hide PoolAllocator.Valid, NoDup, Times, Disjoint;
      p.Give(idx);
    }

    /** Resource_free of the copy of a Resource at the start of a queue block: refused. */
    method FreeCopy(block: nat)
      requires Valid() && block < MAX_NUM_RESOURCES
      modifies resources`size, resources`firstIdx, resources`free, resources.freeList
      ensures Valid() && resources.free == old(resources.free)
    {
      hide PoolAllocator.Valid, NoDup, Times, Disjoint;
      WithinQueue(layout, block, 0);
      resources.Refuse(layout.InQueue(block, 0));
    }
  }

  /** A queue block lies in no message block and in no Resource block. */
  lemma WithinQueue(layout: Layout, block: nat, offset: int)
    requires layout.Sound() && block < MAX_NUM_RESOURCES && 0 <= offset < layout.queueSize
    ensures var address := layout.InQueue(block, offset);
      && !(layout.messageBuffer <= address < layout.messageBuffer + Times(MAX_NUM_RESOURCES, layout.messageSize))
      && !(layout.resourceBuffer <= address < layout.resourceBuffer + Times(MAX_NUM_RESOURCES, layout.resourceSize))
  {
    TimesGrows(block, MAX_NUM_RESOURCES, layout.queueSize);
    if block > 0 {
      TimesGrows(0, block, layout.queueSize);
    }
  }
}
