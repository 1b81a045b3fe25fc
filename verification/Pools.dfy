/** The fixed-size block pool of pool_allocator.c: a free list threaded through an array of indices. */
module Pools {
  import opened Constants
  import opened Sequences

  const NULL_IDX := -1
  const DETACHED_IDX := -2
  const SIZEOF_INT := 4

  datatype PoolResult = Success | NotEnoughMemory | UnalignedFree | OutOfRange | DoubleFree

  /** `k * b` by repeated addition, which keeps products away from the solver (see `TimesIsProduct`). */
  function Times(k: int, b: int): int
    decreases if k < 0 then -k else k
  {
    if k == 0 then 0 else if k > 0 then Times(k - 1, b) + b else Times(k + 1, b) - b
  }

  /** C's `a / b`, truncating toward zero, by repeated subtraction. */
  function CDiv(a: int, b: int): int
    requires b > 0
    decreases a < 0, if a < 0 then -a else a
  {
    if a < 0 then -CDiv(-a, b) else if a < b then 0 else CDiv(a - b, b) + 1
  }

  /** C's `a % b`, with the sign of `a`. */
  function CMod(a: int, b: int): int
    requires b > 0
  {
    a - Times(CDiv(a, b), b)
  }

  lemma {:induction false} TimesIsProduct(k: int, b: int)
    ensures Times(k, b) == k * b
    decreases if k < 0 then -k else k
  {
    if k > 0 {
      TimesIsProduct(k - 1, b);
    } else if k < 0 {
      TimesIsProduct(k + 1, b);
    }
  }

  lemma {:induction false} TimesNegates(k: int, b: int)
    ensures Times(-k, b) == -Times(k, b)
    decreases if k < 0 then -k else k
  {
    if k > 0 {
      TimesNegates(k - 1, b);
    } else if k < 0 {
      TimesNegates(k + 1, b);
    }
  }

  lemma {:induction false} TimesGrows(i: int, j: int, b: int)
    requires b > 0 && i < j
    ensures Times(i, b) + b <= Times(j, b)
    decreases j - i
  {
    assert Times(j - 1, b) + b == Times(j, b);
    if i < j - 1 {
      TimesGrows(i, j - 1, b);
    }
  }

  lemma {:induction false} CDivUndoesTimes(k: int, b: int)
    requires b > 0
    ensures CDiv(Times(k, b), b) == k
    decreases k < 0, if k < 0 then -k else k
  {
    if k < 0 {
      CDivUndoesTimes(-k, b);
      TimesNegates(k, b);
      TimesGrows(k, 0, b);
    } else if k > 0 {
      CDivUndoesTimes(k - 1, b);
      TimesGrows(0, k, b);
    }
  }

  class PoolAllocator {
    var buffer: int  // address of the first block
    var freeList: array<int>
    var size: int
    var sizeMax: int
    var itemSize: int
    var firstIdx: int

    ghost var free: seq<nat>  // the stack of free indices, top first

    ghost predicate Valid()
      reads this, freeList
    {
      && itemSize > 0 && sizeMax > 0
      && freeList.Length == sizeMax
      && size == |free|
      && firstIdx == Link(0)
      && NoDup(free)
      && (forall i {:trigger free[i]} :: 0 <= i < |free| ==> 0 <= free[i] < sizeMax && freeList[free[i]] == Link(i + 1))
      && (forall j {:trigger freeList[j]} :: 0 <= j < sizeMax ==> (freeList[j] == DETACHED_IDX <==> j !in free))
    }

    /** What the chain stores in place of the i-th free index. */
    ghost function Link(i: int): int
      reads this
    {
      if 0 <= i < |free| then free[i] else NULL_IDX
    }

    /** Address of block `idx`. */
    function Address(idx: int): int
      reads this
    {
      buffer + Times(idx, itemSize)
    }

    /** `block` is where some block would start, in the pool or not. */
    ghost predicate OnBoundary(block: int)
      reads this
    {
      exists idx: int :: Address(idx) == block
    }

    ghost function IndexAt(block: int): (idx: int)
      reads this
      requires OnBoundary(block)
      ensures Address(idx) == block
    {
      var idx: int :| Address(idx) == block; idx
    }

    /** What releasing `block` must answer. */
    ghost function Verdict(block: int): PoolResult
      reads this
    {
      if !OnBoundary(block) then UnalignedFree
      else if !(0 <= IndexAt(block) < sizeMax) then OutOfRange
      else if IndexAt(block) in free then DoubleFree
      else Success
    }

    /** C's remainder and quotient of the offset decide and invert `Address`. */
    lemma AddressDecodes(block: int)
      requires itemSize > 0
      ensures CMod(block - buffer, itemSize) == 0 <==> OnBoundary(block)
      ensures OnBoundary(block) ==> IndexAt(block) == CDiv(block - buffer, itemSize)
    {
      if CMod(block - buffer, itemSize) == 0 {
        assert Address(CDiv(block - buffer, itemSize)) == block;
      }
      if OnBoundary(block) {
        CDivUndoesTimes(IndexAt(block), itemSize);
      }
    }

    /** Following the links from firstIdx visits the stack top first and ends after exactly `size` indices, so the
        chain has no cycle. */
    lemma {:induction false} ChainIsStack(k: nat)
      requires Valid() && k <= size
      ensures Follow(freeList[..], firstIdx, k) == Link(k)
    {
      hide NoDup;
      var links := freeList[..];
      assert forall i :: 0 <= i < |free| ==> 0 <= free[i] < |links| && links[free[i]] == Next(free, i + 1);
      FollowsStack(links, free, k);
    }

    /** Blocks marked as detached and free blocks always make up the whole pool. */
    lemma LiveAndFree()
      requires Valid()
      ensures |set i: int | 0 <= i < sizeMax && freeList[i] == DETACHED_IDX| + size == sizeMax
    {
      var live := set i: int | 0 <= i < sizeMax && freeList[i] == DETACHED_IDX;
      var all := Upto(sizeMax);
      UptoFacts(sizeMax);
      MembersSize(all);
      MembersSize(free);
      FreeIndices();
      assert Members(all) - Members(free) == live;
    }

    /** The stack determines every link, so a get undone by a release restores the array. */
    twostate lemma StackDeterminesLinks()
      requires old(Valid()) && Valid() && free == old(free) && freeList == old(freeList) && sizeMax == old(sizeMax)
      ensures firstIdx == old(firstIdx) && size == old(size) && freeList[..] == old(freeList[..])
    {
      forall j | 0 <= j < sizeMax ensures freeList[j] == old(freeList[j]) {
        if j in free {
          var i :| 0 <= i < |free| && free[i] == j;
          assert freeList[free[i]] == Link(i + 1) && old(freeList[free[i]]) == old(Link(i + 1));
        }
      }
    }

    /** The address of a block leads back to its index. */
    lemma IndexedAddress(idx: int)
      requires itemSize > 0
      ensures OnBoundary(Address(idx)) && IndexAt(Address(idx)) == idx
    {
      CDivUndoesTimes(idx, itemSize);
      CDivUndoesTimes(IndexAt(Address(idx)), itemSize);
    }

    /** An address outside the pool's memory is refused, whatever it is. */
    lemma ForeignRefused(block: int)
      requires itemSize > 0 && (block < buffer || Address(sizeMax) <= block)
      ensures Verdict(block) in {UnalignedFree, OutOfRange}
    {
      if OnBoundary(block) && 0 <= IndexAt(block) < sizeMax {
        TimesGrows(IndexAt(block), sizeMax, itemSize);
        if IndexAt(block) > 0 {
          TimesGrows(0, IndexAt(block), itemSize);
        }
      }
    }

    lemma FreeIndices()
      requires Valid()
      ensures itemSize > 0 && NoDup(free) && forall i <- free :: 0 <= i < sizeMax
    {
    }

    constructor ()
    {
      freeList := new int[0];
      buffer, size, sizeMax, itemSize, firstIdx, free := 0, 0, 0, 0, 0, [];
    }

    method Init(itemSize: int, numItems: int, memoryBlock: int, memorySize: int) returns (r: PoolResult)
      requires itemSize > 0 && numItems > 0
      modifies this
      ensures r == if memorySize < Times(numItems, itemSize + SIZEOF_INT) then NotEnoughMemory else Success
      ensures r == NotEnoughMemory ==> unchanged(this)
      ensures r == Success ==>
        && Valid() && fresh(freeList)
        && buffer == memoryBlock && this.itemSize == itemSize && sizeMax == numItems
        && free == Upto(numItems)
    {
      if memorySize < Times(numItems, itemSize + SIZEOF_INT) {
        return NotEnoughMemory;
      }
      this.itemSize, size, sizeMax, buffer := itemSize, numItems, numItems, memoryBlock;
      freeList := new int[numItems];
      for i := 0 to size - 1
        invariant size == numItems && freeList.Length == numItems && fresh(freeList)
        invariant forall j :: 0 <= j < i ==> freeList[j] == j + 1
        invariant this.itemSize == itemSize && sizeMax == numItems && buffer == memoryBlock
      {
        freeList[i] := i + 1;
      }
      freeList[size - 1] := NULL_IDX;
      firstIdx := 0;
      free := Upto(numItems);
      UptoFacts(numItems);
      return Success;
    }

    /** Pops the stack; `found` says whether there was one, where the source returns null otherwise. */
    method GetBlock() returns (found: bool, block: int)
      requires Valid()
      modifies this`size, this`firstIdx, this`free, freeList
      ensures Valid()
      ensures found == (old(free) != [])
      ensures !found ==> unchanged(this) && freeList[..] == old(freeList[..])
      ensures found ==> block == Address(old(free)[0]) && free == old(free)[1..]
    {
      if firstIdx == -1 {
        return false, 0;
      }
      var detachedIdx := firstIdx;
      assert free != [] && free[0] == detachedIdx;
      assert OnlyAt(free, 0);
      firstIdx := freeList[firstIdx];
      size := size - 1;
      freeList[detachedIdx] := DETACHED_IDX;
      NoDupRemovedAt(free, 0);
      free := RemovedAt(free, 0);
      return true, Address(detachedIdx);
    }

    method ReleaseBlock(block: int) returns (r: PoolResult)
      requires Valid()
      modifies this`size, this`firstIdx, this`free, freeList
      ensures Valid()
      ensures r == old(Verdict(block))
      ensures r != Success ==> unchanged(this) && freeList[..] == old(freeList[..])
      ensures r == Success ==> free == [old(IndexAt(block))] + old(free)
    {
      hide NoDup;
      var offset := block - buffer;
      AddressDecodes(block);
      if CMod(offset, itemSize) != 0 {
        return UnalignedFree;
      }
      var idx := CDiv(offset, itemSize);
      if idx < 0 || idx >= sizeMax {
        return OutOfRange;
      }
      if freeList[idx] != DETACHED_IDX {
        return DoubleFree;
      }
      Push(idx);
      return Success;
    }

    /** The stack and the array with one more block on top. */
    method Push(idx: nat)
      requires Valid() && idx < sizeMax && idx !in free
      modifies this`size, this`firstIdx, this`free, freeList
      ensures Valid() && free == [idx] + old(free)
    {
      freeList[idx] := firstIdx;
      firstIdx := idx;
      size := size + 1;
      NoDupInsertedAt(free, 0, idx);
      free := InsertedAt(free, 0, idx);
    }

    /** getBlock, naming the block by its index. */
    method Take() returns (idx: Option<nat>)
      requires Valid()
      modifies this`size, this`firstIdx, this`free, freeList
      ensures Valid()
      ensures if old(free) == [] then idx == None && free == [] else idx == Some(old(free)[0]) && free == old(free)[1..]
    {
      hide NoDup;
      FreeIndices();
      var found, block := GetBlock();
      if !found {
        return None;
      }
      CDivUndoesTimes(old(free)[0], itemSize);
      return Some(CDiv(block - buffer, itemSize));
    }

    /** releaseBlock of a block in use, named by its index: a success. */
    method Give(idx: nat)
      requires Valid() && idx < sizeMax && idx !in free
      modifies this`size, this`firstIdx, this`free, freeList
      ensures Valid() && free == [idx] + old(free)
    {
      hide NoDup;
      IndexedAddress(idx);
      var r := ReleaseBlock(Address(idx));
    }

    /** releaseBlock of an address outside the buffer: refused. */
    method Refuse(block: int)
      requires Valid() && (block < buffer || Address(sizeMax) <= block)
      modifies this`size, this`firstIdx, this`free, freeList
      ensures Valid() && free == old(free)
    {
      hide NoDup;
      ForeignRefused(block);
      var r := ReleaseBlock(block);
    }
  }

  /** The i-th element of the stack, or the end mark. */
  function Next(stack: seq<int>, i: nat): int {
    if i < |stack| then stack[i] else NULL_IDX
  }

  lemma {:induction false} FollowsStack(links: seq<int>, stack: seq<int>, k: nat)
    requires k <= |stack|
    requires forall i :: 0 <= i < |stack| ==> 0 <= stack[i] < |links| && links[stack[i]] == Next(stack, i + 1)
    ensures Follow(links, Next(stack, 0), k) == Next(stack, k)
  {
    if k > 0 {
      FollowsStack(links, stack, k - 1);
    }
  }

  /** The index reached from `idx` after `k` links. */
  function Follow(links: seq<int>, idx: int, k: nat): int {
    if k == 0 then idx else
      var at := Follow(links, idx, k - 1);
      if 0 <= at < |links| then links[at] else NULL_IDX
  }

  /** Blocks at different indices share no byte. */
  lemma BlocksDisjoint(pool: PoolAllocator, i: int, j: int)
    requires pool.itemSize > 0 && i != j
    ensures pool.Address(i) + pool.itemSize <= pool.Address(j) || pool.Address(j) + pool.itemSize <= pool.Address(i)
  {
    TimesGrows(if i < j then i else j, if i < j then j else i, pool.itemSize);
  }
}
