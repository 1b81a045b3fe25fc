/** The intrusive doubly linked list of linked_list.c, on the heap: a struct whose first member is a
    `ListItem` is an `Item` here, and casting the link to the struct is reading its `value`. */
module LinkedLists {
  import opened Sequences

  class Item<T> {
    const id: nat  // which memory block this is; never changes
    var prev: Item?<T>
    var next: Item?<T>
    var value: T

    constructor (id: nat, value: T)
      ensures this.id == id && this.value == value && Unlinked()
    {
      this.id, this.value, prev, next := id, value, null, null;
    }

    predicate Unlinked()
      reads `prev, `next
    {
      prev == null && next == null
    }
  }

  /** Where the list is cut when an item is inserted after `prev`, null meaning the front. */
  ghost function Cut<T>(items: seq<Item<T>>, prev: Item?<T>): (k: nat)
    requires prev == null || prev in items
    ensures k <= |items|
    ensures if prev == null then k == 0 else k > 0 && items[k - 1] == prev
  {
    if prev == null then 0 else IndexOf(items, prev) + 1
  }

  /** Inserting after the last item, or in front of nothing, is appending. */
  lemma LastCut<T>(items: seq<Item<T>>)
    requires NoDup(items)
    ensures var last := ItemAt(items, |items| - 1);
      (last == null || last in items) && Cut(items, last) == |items|
    ensures forall x :: InsertedAt(items, |items|, x) == items + [x]
  {
    if items != [] {
      assert OnlyAt(items, |items| - 1);
    }
  }

  /** The abstract insertion: `item` right after `prev`. */
  ghost function InsertedAfter<T>(items: seq<Item<T>>, prev: Item?<T>, item: Item<T>): seq<Item<T>>
    requires prev == null || prev in items
  {
    InsertedAt(items, Cut(items, prev), item)
  }

  /** The abstract removal of the one occurrence of `item`. */
  ghost function Without<T>(items: seq<Item<T>>, item: Item<T>): seq<Item<T>>
    requires item in items
  {
    RemovedAt(items, IndexOf(items, item))
  }

  ghost function ItemAt<T>(items: seq<Item<T>>, i: int): Item?<T> {
    if 0 <= i < |items| then items[i] else null
  }

  /** Every link of `items` points at its neighbour in the sequence. */
  ghost predicate Chained<T>(items: seq<Item<T>>)
    reads items`prev, items`next
  {
    && (forall i {:trigger items[i].prev} :: 0 <= i < |items| ==> items[i].prev == ItemAt(items, i - 1))
    && (forall i {:trigger items[i].next} :: 0 <= i < |items| ==> items[i].next == ItemAt(items, i + 1))
  }

  class ListHead<T> {
    var first: Item?<T>
    var last: Item?<T>
    var size: int
    ghost var items: seq<Item<T>>
    ghost var nodes: set<Item<T>>  // Members(items)

    ghost predicate Valid()
      reads this, nodes`prev, nodes`next
    {
      && nodes == Members(items)
      && size == |items|
      && first == ItemAt(items, 0)
      && last == ItemAt(items, |items| - 1)
      && NoDup(items)
      && Chained(items)
    }

    constructor ()
      ensures Valid() && items == []
    {
      first, last, size, items, nodes := null, null, 0, [], {};
    }

    method Find(item: Item<T>) returns (r: Item?<T>)
      requires Valid()
      ensures r == if item in items then item else null
    {
      var aux := first;
      ghost var k := 0;
      while aux != null
        invariant k <= |items|
        invariant aux == ItemAt(items, k)
        invariant item !in items[..k]
        decreases |items| - k
      {
        if aux == item {
          return item;
        }
        aux := aux.next;
        k := k + 1;
      }
      assert items[..k] == items;
      return null;
    }

    method Insert(prev: Item?<T>, item: Item<T>) returns (r: Item?<T>)
      requires Valid()
      requires prev == null || prev in items
      requires item !in items
      modifies this, nodes`prev, nodes`next, item`prev, item`next
      ensures Valid()
      ensures r == if old(item.Unlinked()) then item else null
      ensures r == null ==> unchanged(this) && unchanged(old(nodes)) && unchanged(item)
      ensures r != null ==> nodes == old(nodes) + {item}
      ensures r != null ==> items == InsertedAt(old(items), old(Cut(items, prev)), item)
    {
      hide NoDup, Chained, OnlyAt, IndexOf, Members;
      if item.next != null || item.prev != null {
        return null;
      }
      ghost var s, k: int := items, Cut(items, prev);
      ghost var s' := InsertedAt(s, k, item);
      MembersInserted(s, k, item);
      NeighboursAreMembers(s, k - 1, k);
      NoDupInsertedAt(s, k, item);
      LinksAt(s, k - 1);
      var next := if prev != null then prev.next else first;
      assert next == ItemAt(s, k);
      if prev != null {
        item.prev := prev;
        prev.next := item;
      }
      if next != null {
        item.next := next;
        next.prev := item;
      }
      if prev == null {
        first := item;
      }
      if next == null {
        last := item;
      }
      size := size + 1;
      items, nodes := s', nodes + {item};
      ChainedInsertion(s, k, prev, item, next);
      assert first == ItemAt(items, 0) && last == ItemAt(items, |items| - 1);
      return item;
    }

    method Detach(item: Item<T>) returns (r: Item<T>)
      requires Valid()
      requires item in items
      modifies this, nodes`prev, nodes`next
      ensures Valid()
      ensures r == item && item.Unlinked()
      ensures nodes == old(nodes) - {item}
      ensures items == RemovedAt(old(items), IndexOf(old(items), item))
    {
      hide NoDup, Chained, OnlyAt, IndexOf, Members;
      ghost var s, k: int := items, IndexOf(items, item);
      ghost var s' := RemovedAt(s, k);
      MembersRemoved(s, k);
      NeighboursAreMembers(s, k - 1, k + 1);
      NoDupRemovedAt(s, k);
      LinksAt(s, k);
      EndsAreUnique(s, k);
      assert item in nodes by { MembersHas(s); }
      var prev, next := item.prev, item.next;
      if prev != null {
        prev.next := next;
      }
      if next != null {
        next.prev := prev;
      }
      if item == first {
        first := next;
      }
      if item == last {
        last := prev;
      }
      size := size - 1;
      item.next, item.prev := null, null;
      items, nodes := s', nodes - {item};
      ChainedRemoval(s, k, item, prev, next);
      assert first == ItemAt(items, 0) && last == ItemAt(items, |items| - 1);
      return item;
    }
  }

  lemma LinksAt<T>(s: seq<Item<T>>, k: int)
    requires Chained(s)
    ensures 0 <= k < |s| ==> s[k].prev == ItemAt(s, k - 1) && s[k].next == ItemAt(s, k + 1)
  {
  }

  lemma NeighboursAreMembers<T>(s: seq<Item<T>>, i: int, j: int)
    ensures ItemAt(s, i) != null ==> ItemAt(s, i) in Members(s)
    ensures ItemAt(s, j) != null ==> ItemAt(s, j) in Members(s)
  {
  }

  lemma EndsAreUnique<T>(s: seq<Item<T>>, k: nat)
    requires NoDup(s) && k < |s|
    ensures s[k] == s[0] <==> k == 0
    ensures s[k] == s[|s| - 1] <==> k == |s| - 1
    ensures forall i :: 0 <= i < |s| && i != k ==> s[i] != s[k]
  {
    assert OnlyAt(s, k);
  }

  twostate lemma ChainedInsertion<T>(s: seq<Item<T>>, new k: nat, new prev: Item?<T>, new item: Item<T>,
                                     new next: Item?<T>)
    requires k <= |s| && NoDup(s) && item !in s
    requires old(Chained(s))
    requires prev == ItemAt(s, k - 1) && next == ItemAt(s, k)
    requires item.prev == prev && item.next == next
    requires forall i {:trigger s[i].next} :: 0 <= i < |s| ==>
      s[i].next == if s[i] == prev then item else old(s[i].next)
    requires forall i {:trigger s[i].prev} :: 0 <= i < |s| ==>
      s[i].prev == if s[i] == next then item else old(s[i].prev)
    ensures Chained(InsertedAt(s, k, item))
  {
    assert prev != null ==> OnlyAt(s, k - 1);
    assert next != null ==> OnlyAt(s, k);
  }

  twostate lemma ChainedRemoval<T>(s: seq<Item<T>>, new k: nat, new item: Item<T>, new prev: Item?<T>,
                                   new next: Item?<T>)
    requires k < |s| && NoDup(s) && item == s[k]
    requires old(Chained(s))
    requires prev == ItemAt(s, k - 1) && next == ItemAt(s, k + 1)
    requires forall i {:trigger s[i].next} :: 0 <= i < |s| && i != k ==>
      s[i].next == if s[i] == prev then next else old(s[i].next)
    requires forall i {:trigger s[i].prev} :: 0 <= i < |s| && i != k ==>
      s[i].prev == if s[i] == next then prev else old(s[i].prev)
    ensures Chained(RemovedAt(s, k))
  {
    assert OnlyAt(s, k);
    assert prev != null ==> OnlyAt(s, k - 1);
    assert next != null ==> OnlyAt(s, k + 1);
  }

  /** Detaching what was just inserted gives back the list. */
  lemma InsertThenDetach<T>(items: seq<Item<T>>, prev: Item?<T>, item: Item<T>)
    requires prev == null || prev in items
    requires item !in items
    ensures item in InsertedAfter(items, prev, item)
    ensures Without(InsertedAfter(items, prev, item), item) == items
  {
    var k := Cut(items, prev);
    assert InsertedAfter(items, prev, item)[k] == item;
    assert IndexOf(InsertedAfter(items, prev, item), item) == k;
  }

  /** The sequence of items determines every pointer of the list, so restoring `items` restores the heap. */
  twostate lemma ItemsDetermineLinks<T>(head: ListHead<T>)
    requires old(head.Valid()) && head.Valid() && head.items == old(head.items)
    ensures head.first == old(head.first) && head.last == old(head.last) && head.size == old(head.size)
    ensures forall x <- head.items :: x.prev == old(x.prev) && x.next == old(x.next)
  {
  }
}
