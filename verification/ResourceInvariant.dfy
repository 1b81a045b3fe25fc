/** The invariant of the resource half: descriptors and resource entries are mutual inverses, names are
    distinct, pools and messages add up. Each part speaks only of the fields it depends on. */
module ResourceInvariant {
  import opened Constants
  import opened Sequences
  import opened Resources

  /** Resource ids are pairwise distinct, so a linear lookup reads a finite map. */
  ghost predicate Names(order: seq<int>, res: map<int, Resource>) {
    && NoDup(order)
    && (forall id <- order :: id in res)
    && (forall id <- res :: id in order)
  }

  /** Each process lists exactly its own descriptors, with distinct fds below last_fd. */
  ghost predicate Owned(files: map<nat, Files>, desc: map<nat, Desc>) {
    && (forall p <- files {:trigger Sound(p, files[p], desc)} :: Sound(p, files[p], desc))
    && (forall d <- desc :: desc[d].pid in files ==> d in files[desc[d].pid].descs)
  }

  ghost predicate Sound(p: nat, f: Files, desc: map<nat, Desc>) {
    && NoDup(f.descs)
    && (forall d <- f.descs :: d in desc && desc[d].pid == p && desc[d].fd < f.lastFd)
    && (forall d <- f.descs, e <- f.descs :: desc[d].fd == desc[e].fd ==> d == e)
  }

  /** `des->ptr` leads to an entry of the resource's list that leads back. */
  ghost predicate Entered(d: nat, desc: map<nat, Desc>, dptr: map<nat, nat>, res: map<int, Resource>)
    requires d in desc
  {
    && desc[d].ptr in dptr && dptr[desc[d].ptr] == d
    && desc[d].rid in res && desc[d].ptr in res[desc[d].rid].ptrs
  }

  /** `ptr->descriptor` leads to a descriptor of resource `id` that leads back. */
  ghost predicate Backed(q: nat, id: int, desc: map<nat, Desc>, dptr: map<nat, nat>) {
    q in dptr && dptr[q] in desc && desc[dptr[q]].ptr == q && desc[dptr[q]].rid == id
  }

  ghost predicate Listed(id: int, ptrs: seq<nat>, desc: map<nat, Desc>, dptr: map<nat, nat>) {
    NoDup(ptrs) && forall q <- ptrs {:trigger Backed(q, id, desc, dptr)} :: Backed(q, id, desc, dptr)
  }

  ghost predicate Crossed(desc: map<nat, Desc>, dptr: map<nat, nat>, res: map<int, Resource>) {
    && (forall d <- desc {:trigger Entered(d, desc, dptr, res)} :: Entered(d, desc, dptr, res))
    && (forall id <- res {:trigger Listed(id, res[id].ptrs, desc, dptr)} :: Listed(id, res[id].ptrs, desc, dptr))
    && (forall q <- dptr :: dptr[q] in desc && desc[dptr[q]].ptr == q)
  }

  /** Free blocks are not allocated ones, and both descriptor pools always have equally many. */
  ghost predicate Pooled(descPool: seq<nat>, ptrPool: seq<nat>, desc: map<nat, Desc>, dptr: map<nat, nat>) {
    && NoDup(descPool) && (forall d <- descPool :: d !in desc)
    && NoDup(ptrPool) && (forall q <- ptrPool :: q !in dptr)
    && |descPool| == |ptrPool|
    && |descPool| + |desc| == MAX_NUM_PROCESSES
  }

  /** `num_msg` bounds the number of messages and never exceeds the maximum, also in free and stranded blocks. */
  ghost predicate Queued(queuePool: seq<nat>, stranded: map<nat, seq<int>>, numMsg: map<nat, nat>,
                         res: map<int, Resource>) {
    && NoDup(queuePool)
    && (forall b <- queuePool :: b in numMsg)
    && (forall b <- stranded :: b in numMsg && b !in queuePool && |stranded[b]| <= numMsg[b])
    && (forall b <- numMsg :: numMsg[b] <= MQ_MAX_MSG_SIZE)
    && (forall id <- res {:trigger Bounded(res[id], queuePool, stranded, numMsg)} ::
          Bounded(res[id], queuePool, stranded, numMsg))
    && (forall i <- res, j <- res {:trigger SameBlock(res[i], res[j])} :: SameBlock(res[i], res[j]) ==> i == j)
  }

  ghost predicate Bounded(r: Resource, queuePool: seq<nat>, stranded: map<nat, seq<int>>, numMsg: map<nat, nat>) {
    && (r.kind.Queue? <==> r.rtype == DSOS_MQ)
    && (r.kind.Queue? ==>
          && r.kind.block in numMsg && r.kind.block !in queuePool && r.kind.block !in stranded
          && |r.kind.messages| <= numMsg[r.kind.block])
  }

  ghost predicate SameBlock(a: Resource, b: Resource) {
    a.kind.Queue? && b.kind.Queue? && a.kind.block == b.kind.block
  }

  /** What is counted over the resource list. */
  datatype Stock = Texts | Plains | Queues

  function Weight(k: Stock, r: Resource): nat {
    match (k, r.kind)
    case (Texts, Queue(_, messages)) => |messages|
    case (Plains, Plain) => 1
    case (Queues, Queue(_, _)) => 1
    case (_, _) => 0
  }

  function Total(k: Stock, order: seq<int>, res: map<int, Resource>): nat {
    if order == [] then 0
    else (if order[0] in res then Weight(k, res[order[0]]) else 0) + Total(k, order[1..], res)
  }

  /** The blocks of one of the three pools that are not listed: free, or known to be lost. */
  function Spare(k: Stock, messageFree: nat, lostMessages: nat, resourceFree: nat, queuesMade: nat,
                 queuePool: seq<nat>, stranded: map<nat, seq<int>>): nat
  {
    match k
    case Texts => messageFree + lostMessages
    case Plains => resourceFree + queuesMade
    case Queues => |queuePool| + |stranded|
  }

  ghost predicate Counted(k: Stock, order: seq<int>, res: map<int, Resource>, spare: nat) {
    Total(k, order, res) + spare == MAX_NUM_RESOURCES
  }

  function SpareIn(k: Stock, t: Table): nat {
    Spare(k, t.messageFree, t.lostMessages, t.resourceFree, t.queuesMade, t.queuePool, t.stranded)
  }

  /** The books of the pools behind messages, resources and queues. */
  ghost predicate Books(t: Table) {
    forall k {:trigger Counted(k, t.order, t.res, SpareIn(k, t))} :: Counted(k, t.order, t.res, SpareIn(k, t))
  }

  lemma BooksMoved(t: Table, u: Table)
    requires Books(t)
    requires forall k :: Total(k, u.order, u.res) + SpareIn(k, u) == Total(k, t.order, t.res) + SpareIn(k, t)
    ensures Books(u)
  {
    forall k ensures Counted(k, u.order, u.res, SpareIn(k, u)) {
      assert Counted(k, t.order, t.res, SpareIn(k, t));
    }
  }

  ghost predicate TableInv(t: Table) {
    && Names(t.order, t.res)
    && Owned(t.files, t.desc)
    && Crossed(t.desc, t.dptr, t.res)
    && Pooled(t.descPool, t.ptrPool, t.desc, t.dptr)
    && Queued(t.queuePool, t.stranded, t.numMsg, t.res)
    && Books(t)
  }

  lemma InvLinked(t: Table)
    requires TableInv(t)
    ensures WellLinked(t) && (t.descPool != [] ==> t.ptrPool != [])
    ensures forall id <- t.res :: t.res[id].kind.Queue? ==> IsQueue(t, id)
  {
    assert forall d <- t.desc :: Entered(d, t.desc, t.dptr, t.res);
    assert forall id <- t.res :: Bounded(t.res[id], t.queuePool, t.stranded, t.numMsg);
    assert forall p <- t.files :: Sound(p, t.files[p], t.desc);
  }

  // ---------- totals ----------

  lemma {:induction false} TotalAppend(k: Stock, order: seq<int>, res: map<int, Resource>, id: int, r: Resource)
    requires id !in order
    ensures Total(k, order + [id], res[id := r]) == Total(k, order, res) + Weight(k, r)
  {
    if order == [] {
      assert (order + [id])[1..] == [];
    } else {
      assert (order + [id])[1..] == order[1..] + [id];
      TotalAppend(k, order[1..], res, id, r);
    }
  }

  lemma {:induction false} TotalUpdate(k: Stock, order: seq<int>, res: map<int, Resource>, id: int, r: Resource)
    requires NoDup(order) && id in res
    ensures Total(k, order, res[id := r]) ==
      if id in order then Total(k, order, res) - Weight(k, res[id]) + Weight(k, r) else Total(k, order, res)
  {
    if order != [] {
      NoDupTail(order);
      TotalUpdate(k, order[1..], res, id, r);
    }
  }

  lemma {:induction false} TotalMinus(k: Stock, order: seq<int>, res: map<int, Resource>, id: int)
    requires NoDup(order) && id in res
    ensures Total(k, Minus(order, [id]), res - {id}) ==
      if id in order then Total(k, order, res) - Weight(k, res[id]) else Total(k, order, res)
  {
    if order != [] {
      NoDupTail(order);
      TotalMinus(k, order[1..], res, id);
      if order[0] != id {
        assert ([order[0]] + Minus(order[1..], [id]))[1..] == Minus(order[1..], [id]);
      }
    }
  }

  // ---------- adding a resource ----------

  lemma AddNames(t: Table, id: int, r: Resource)
    requires Names(t.order, t.res) && id !in t.order
    ensures Names(t.order + [id], t.res[id := r])
    ensures id !in t.res
  {
    NoDupSnoc(t.order, id);
  }

  lemma AddCrossed(t: Table, id: int, r: Resource)
    requires Crossed(t.desc, t.dptr, t.res) && id !in t.res && r.ptrs == []
    ensures Crossed(t.desc, t.dptr, t.res[id := r])
  {
    var res := t.res[id := r];
    forall d <- t.desc ensures Entered(d, t.desc, t.dptr, res) {
      assert Entered(d, t.desc, t.dptr, t.res);
    }
    forall i <- res ensures Listed(i, res[i].ptrs, t.desc, t.dptr) {
      assert i in t.res ==> Listed(i, t.res[i].ptrs, t.desc, t.dptr);
    }
  }

  lemma AddTotals(t: Table, id: int, r: Resource)
    requires id !in t.order
    ensures forall k :: Total(k, t.order + [id], t.res[id := r]) == Total(k, t.order, t.res) + Weight(k, r)
  {
    forall k ensures Total(k, t.order + [id], t.res[id := r]) == Total(k, t.order, t.res) + Weight(k, r) {
      TotalAppend(k, t.order, t.res, id, r);
    }
  }

  lemma MakePlainKeeps(t: Table, id: int, rtype: int)
    requires TableInv(t) && id !in t.order && rtype != DSOS_MQ && t.resourceFree > 0
    ensures TableInv(AddResource(t, id, Resource(rtype, [], Plain)).(resourceFree := t.resourceFree - 1))
  {
    var r := Resource(rtype, [], Plain);
    AddNames(t, id, r);
    AddCrossed(t, id, r);
    AddTotals(t, id, r);
    MakePlainQueued(t, id, r);
    BooksMoved(t, AddResource(t, id, r).(resourceFree := t.resourceFree - 1));
    hide Total, Names, Crossed, Owned, Pooled, Queued;
  }

  lemma MakePlainQueued(t: Table, id: int, r: Resource)
    requires Queued(t.queuePool, t.stranded, t.numMsg, t.res) && r.kind.Plain? && r.rtype != DSOS_MQ && id !in t.res
    ensures Queued(t.queuePool, t.stranded, t.numMsg, t.res[id := r])
  {
    var res := t.res[id := r];
    forall i <- res ensures Bounded(res[i], t.queuePool, t.stranded, t.numMsg) {
      assert i in t.res ==> Bounded(t.res[i], t.queuePool, t.stranded, t.numMsg);
    }
    forall i <- res, j <- res ensures SameBlock(res[i], res[j]) ==> i == j {
      assert i in t.res && j in t.res && SameBlock(t.res[i], t.res[j]) ==> i == j;
    }
  }

  lemma MakeQueueKeeps(t: Table, id: int)
    requires TableInv(t) && id !in t.order && t.queuePool != [] && t.resourceFree > 0
    ensures TableInv(MakeQueue(t, id))
  {
    var b := t.queuePool[0];
    var r := Resource(DSOS_MQ, [], Queue(b, []));
    AddNames(t, id, r);
    AddCrossed(t, id, r);
    AddTotals(t, id, r);
    MakeQueueQueued(t, id, r);
    BooksMoved(t, MakeQueue(t, id));
    hide Total, Names, Crossed, Owned, Pooled, Queued;
  }

  lemma MakeQueueQueued(t: Table, id: int, r: Resource)
    requires Queued(t.queuePool, t.stranded, t.numMsg, t.res) && id !in t.res && t.queuePool != []
    requires r == Resource(DSOS_MQ, [], Queue(t.queuePool[0], []))
    ensures Queued(t.queuePool[1..], t.stranded, t.numMsg, t.res[id := r])
  {
    var b, pool, res := t.queuePool[0], t.queuePool[1..], t.res[id := r];
    NoDupTail(t.queuePool);
    assert b in t.queuePool;
    forall i <- res ensures Bounded(res[i], pool, t.stranded, t.numMsg) {
      assert i in t.res ==> Bounded(t.res[i], t.queuePool, t.stranded, t.numMsg);
    }
    forall i <- res, j <- res ensures SameBlock(res[i], res[j]) ==> i == j {
      assert i in t.res ==> Bounded(t.res[i], t.queuePool, t.stranded, t.numMsg);
      assert j in t.res ==> Bounded(t.res[j], t.queuePool, t.stranded, t.numMsg);
    }
  }

  // ---------- linking a descriptor ----------

  lemma LinkOwned(t: Table, pid: nat, id: int)
    requires TableInv(t) && pid in t.files && id in t.res && t.descPool != [] && t.ptrPool != []
    ensures Owned(Link(t, pid, id).files, Link(t, pid, id).desc)
  {
    var u, d := Link(t, pid, id), t.descPool[0];
    assert d in t.descPool && d !in t.desc;
    forall p <- u.files ensures Sound(p, u.files[p], u.desc) {
      assert Sound(p, t.files[p], t.desc);
      if p == pid {
        NoDupSnoc(t.files[p].descs, d);
      }
    }
  }

  lemma LinkCrossed(t: Table, pid: nat, id: int)
    requires TableInv(t) && pid in t.files && id in t.res && t.descPool != [] && t.ptrPool != []
    ensures Crossed(Link(t, pid, id).desc, Link(t, pid, id).dptr, Link(t, pid, id).res)
  {
    hide Owned, Queued, Names, Counted;
    var u, d, q := Link(t, pid, id), t.descPool[0], t.ptrPool[0];
    assert d in t.descPool && q in t.ptrPool;
    forall e <- u.desc ensures Entered(e, u.desc, u.dptr, u.res) {
      assert e in t.desc ==> Entered(e, t.desc, t.dptr, t.res);
    }
    forall i <- u.res ensures Listed(i, u.res[i].ptrs, u.desc, u.dptr) {
      assert Listed(i, t.res[i].ptrs, t.desc, t.dptr);
      forall x <- u.res[i].ptrs ensures Backed(x, i, u.desc, u.dptr) {
        if x in t.res[i].ptrs {
          assert Backed(x, i, t.desc, t.dptr);
        }
      }
      if i == id {
        NoDupSnoc(t.res[i].ptrs, q) by {
          assert forall x <- t.res[i].ptrs :: Backed(x, i, t.desc, t.dptr);
        }
      }
    }
  }

  lemma LinkPooled(t: Table, pid: nat, id: int)
    requires TableInv(t) && pid in t.files && id in t.res && t.descPool != [] && t.ptrPool != []
    ensures Pooled(Link(t, pid, id).descPool, Link(t, pid, id).ptrPool, Link(t, pid, id).desc, Link(t, pid, id).dptr)
  {
    hide Owned, Queued, Names, Counted, Crossed;
    NoDupTail(t.descPool);
    NoDupTail(t.ptrPool);
    assert t.descPool[0] in t.descPool;
  }

  /** Changing only the entry list of one resource leaves names, queues and totals as they are. */
  lemma EntryListIrrelevant(t: Table, id: int, ptrs: seq<nat>)
    requires TableInv(t) && id in t.res
    ensures var res := t.res[id := t.res[id].(ptrs := ptrs)];
      Names(t.order, res) && Queued(t.queuePool, t.stranded, t.numMsg, res) && Books(t.(res := res))
  {
    hide Owned, Crossed, Pooled;
    var res := t.res[id := t.res[id].(ptrs := ptrs)];
    forall k ensures Total(k, t.order, res) == Total(k, t.order, t.res) {
      TotalUpdate(k, t.order, t.res, id, res[id]);
    }
    BooksMoved(t, t.(res := res));
    forall i <- res ensures Bounded(res[i], t.queuePool, t.stranded, t.numMsg) {
      assert Bounded(t.res[i], t.queuePool, t.stranded, t.numMsg);
    }
    forall i <- res, j <- res ensures SameBlock(res[i], res[j]) ==> i == j {
      assert SameBlock(t.res[i], t.res[j]) ==> i == j;
    }
  }

  lemma LinkKeeps(t: Table, pid: nat, id: int)
    requires TableInv(t) && pid in t.files && id in t.res && t.descPool != [] && t.ptrPool != []
    ensures TableInv(Link(t, pid, id))
  {
    LinkOwned(t, pid, id);
    LinkCrossed(t, pid, id);
    LinkPooled(t, pid, id);
    hide Owned, Crossed, Pooled, Names, Queued, Total, Spare;
    EntryListIrrelevant(t, id, t.res[id].ptrs + [t.ptrPool[0]]);
    BooksMoved(t.(res := Link(t, pid, id).res), Link(t, pid, id));
  }

  lemma OpenExistingKeeps(t: Table, pid: nat, id: int, rtype: int, mode: int)
    requires TableInv(t) && pid in t.files && WellLinked(t) && (t.descPool != [] ==> t.ptrPool != [])
    ensures TableInv(OpenExisting(t, pid, id, rtype, mode).table)
  {
    hide TableInv;
    if id in t.order && t.descPool != [] {
      LinkKeeps(t, pid, id);
    }
  }

  lemma OpenResourceKeeps(t: Table, pid: nat, id: int, rtype: int, mode: int)
    requires TableInv(t) && OpenDefined(t, pid, id, rtype, mode)
    ensures TableInv(OpenResource(t, pid, id, rtype, mode).table)
  {
    hide TableInv;
    if HasCreate(mode) && id !in t.order {
      var made := AddResource(t, id, Resource(rtype, [], Plain)).(resourceFree := t.resourceFree - 1);
      MakePlainKeeps(t, id, rtype);
      InvLinked(made);
      OpenExistingKeeps(made, pid, id, rtype, mode);
    } else if !HasCreate(mode) {
      OpenExistingKeeps(t, pid, id, rtype, mode);
    }
  }

  lemma MqOpenFoundKeeps(t: Table, pid: nat, id: int, rtype: int, mode: int)
    requires TableInv(t) && pid in t.files && WellLinked(t) && (t.descPool != [] ==> t.ptrPool != [])
    requires mode == DSOS_CREATE && id !in t.order ==> t.resourceFree > 0 && t.queuePool != []
    ensures TableInv(MqOpenFound(t, pid, id, rtype, mode).table)
  {
    hide TableInv;
    if mode == DSOS_CREATE && id !in t.order {
      MakeQueueKeeps(t, id);
      InvLinked(MakeQueue(t, id));
      OpenExistingKeeps(MakeQueue(t, id), pid, id, rtype, mode);
    } else if mode != DSOS_CREATE {
      OpenExistingKeeps(t, pid, id, rtype, mode);
    }
  }

  lemma MqOpenKeeps(t: Table, pid: nat, id: int, rtype: int, mode: int)
    requires TableInv(t) && MqOpenDefined(t, pid, id, rtype, mode)
    ensures TableInv(MqOpen(t, pid, id, rtype, mode).table)
  {
    hide TableInv, OpenResource, MqOpenFound;
    if rtype != DSOS_MQ {
      OpenResourceKeeps(t, pid, id, rtype, mode);
      OpenResourceShape(t, pid, id, rtype, mode);
      InvLinked(OpenResource(t, pid, id, rtype, mode).table);
      MqOpenFoundKeeps(OpenResource(t, pid, id, rtype, mode).table, pid, id, rtype, mode);
    } else {
      MqOpenFoundKeeps(t, pid, id, rtype, mode);
    }
  }

  // ---------- unlinking a descriptor ----------

  lemma UnlinkedOwned(t: Table, pid: nat, d: nat)
    requires TableInv(t) && WellLinked(t) && pid in t.files && d in t.files[pid].descs
    ensures Owned(Unlinked(t, pid, d).files, Unlinked(t, pid, d).desc)
  {
    hide Names, Queued, Counted, Crossed, Pooled, Minus, NoDup;
    var u := Unlinked(t, pid, d);
    assert Sound(pid, t.files[pid], t.desc);
    forall p <- u.files ensures Sound(p, u.files[p], u.desc) {
      assert Sound(p, t.files[p], t.desc);
      NoDupMinus(t.files[p].descs, [d]);
    }
  }

  lemma UnlinkedCrossed(t: Table, pid: nat, d: nat)
    requires TableInv(t) && WellLinked(t) && pid in t.files && d in t.files[pid].descs
    ensures Crossed(Unlinked(t, pid, d).desc, Unlinked(t, pid, d).dptr, Unlinked(t, pid, d).res)
  {
    hide Names, Queued, Counted, Owned, Pooled, Minus, NoDup;
    var u, id, q := Unlinked(t, pid, d), t.desc[d].rid, t.desc[d].ptr;
    assert Entered(d, t.desc, t.dptr, t.res);
    forall e <- u.desc ensures Entered(e, u.desc, u.dptr, u.res) {
      assert Entered(e, t.desc, t.dptr, t.res);
    }
    forall i <- u.res ensures Listed(i, u.res[i].ptrs, u.desc, u.dptr) {
      assert Listed(i, t.res[i].ptrs, t.desc, t.dptr);
      NoDupMinus(t.res[i].ptrs, [q]);
      forall x <- u.res[i].ptrs ensures Backed(x, i, u.desc, u.dptr) {
        assert Backed(x, i, t.desc, t.dptr);
      }
    }
  }

  lemma UnlinkedPooled(t: Table, pid: nat, d: nat)
    requires TableInv(t) && WellLinked(t) && pid in t.files && d in t.files[pid].descs
    ensures var u := Unlinked(t, pid, d); Pooled(u.descPool, u.ptrPool, u.desc, u.dptr)
  {
    hide Names, Queued, Counted, Owned;
    var q := t.desc[d].ptr;
    assert Entered(d, t.desc, t.dptr, t.res);
    NoDupInsertedAt(t.descPool, 0, d);
    NoDupInsertedAt(t.ptrPool, 0, q);
    assert InsertedAt(t.descPool, 0, d) == [d] + t.descPool;
    assert InsertedAt(t.ptrPool, 0, q) == [q] + t.ptrPool;
  }

  lemma UnlinkedKeeps(t: Table, pid: nat, d: nat)
    requires TableInv(t) && WellLinked(t) && pid in t.files && d in t.files[pid].descs
    ensures TableInv(Unlinked(t, pid, d))
  {
    UnlinkedOwned(t, pid, d);
    UnlinkedCrossed(t, pid, d);
    UnlinkedPooled(t, pid, d);
    hide Owned, Crossed, Pooled, Names, Queued, Total, Spare;
    EntryListIrrelevant(t, t.desc[d].rid, Minus(t.res[t.desc[d].rid].ptrs, [t.desc[d].ptr]));
    BooksMoved(t.(res := Unlinked(t, pid, d).res), Unlinked(t, pid, d));
  }

  lemma CloseKeeps(t: Table, pid: nat, fd: int)
    requires TableInv(t) && WellLinked(t) && pid in t.files
    ensures TableInv(Close(t, pid, fd).table)
  {
    hide TableInv;
    var d := ByFd(t.desc, t.files[pid].descs, fd);
    if d.Some? {
      UnlinkedKeeps(t, pid, d.value);
    }
  }

  lemma {:induction false} CloseAllKeeps(t: Table, pid: nat, ds: seq<nat>)
    requires TableInv(t) && WellLinked(t) && pid in t.files && t.files[pid].descs == ds && NoDup(ds)
    ensures var u := CloseAll(t, pid, ds);
      TableInv(u) && u.files == t.files[pid := t.files[pid].(descs := [])]
    decreases ds
  {
    hide TableInv;
    if ds == [] {
      assert t.files == t.files[pid := t.files[pid].(descs := [])];
    } else {
      var u := Unlinked(t, pid, ds[0]);
      NoDupTail(ds);
      UnlinkedKeeps(t, pid, ds[0]);
      InvLinked(u);
      MinusNothing(ds[1..], [ds[0]]);
      assert u.files[pid].descs == ds[1..];
      CloseAllKeeps(u, pid, ds[1..]);
    }
  }

  // ---------- removing a resource ----------

  /** Where the block of a forgotten queue goes: back to the pool, or nowhere. */
  ghost predicate Retired(r: Resource, t: Table, u: Table) {
    match r.kind
    case Plain => u.queuePool == t.queuePool && u.stranded == t.stranded
    case Queue(block, messages) =>
      || (u.queuePool == [block] + t.queuePool && u.stranded == t.stranded)
      || (u.queuePool == t.queuePool && u.stranded == t.stranded[block := messages])
  }

  lemma ForgetKeeps(t: Table, id: int, u: Table)
    requires TableInv(t) && id in t.order && t.res[id].ptrs == []
    requires u == Forget(t, id).(resourceFree := u.resourceFree, queuePool := u.queuePool, messageFree := u.messageFree,
                                 stranded := u.stranded, lostMessages := u.lostMessages)
    requires var r := t.res[id];
      && Retired(r, t, u)
      && u.resourceFree == t.resourceFree + Weight(Plains, r)
      && u.messageFree + u.lostMessages == t.messageFree + t.lostMessages + Weight(Texts, r)
    ensures TableInv(u)
  {
    ForgetNames(t, id);
    ForgetCrossed(t, id);
    ForgetQueued(t, id, u);
    ForgetBooks(t, id, u);
    hide Owned, Crossed, Pooled, Queued, Names, Books, Minus, Retired, Weight;
  }

  lemma ForgetBooks(t: Table, id: int, u: Table)
    requires Names(t.order, t.res) && Books(t) && id in t.order && Retired(t.res[id], t, u)
    requires Queued(t.queuePool, t.stranded, t.numMsg, t.res)
    requires u.order == Minus(t.order, [id]) && u.res == t.res - {id} && u.queuesMade == t.queuesMade
    requires u.resourceFree == t.resourceFree + Weight(Plains, t.res[id])
    requires u.messageFree + u.lostMessages == t.messageFree + t.lostMessages + Weight(Texts, t.res[id])
    ensures Books(u)
  {
    hide Minus, NoDup, Books;
    assert Bounded(t.res[id], t.queuePool, t.stranded, t.numMsg);
    forall k ensures Total(k, u.order, u.res) == Total(k, t.order, t.res) - Weight(k, t.res[id]) {
      TotalMinus(k, t.order, t.res, id);
    }
    hide Total, Queued;
    BooksMoved(t, u);
  }

  lemma ForgetNames(t: Table, id: int)
    requires Names(t.order, t.res) && id in t.order
    ensures Names(Minus(t.order, [id]), t.res - {id})
  {
    NoDupMinus(t.order, [id]);
  }

  lemma ForgetCrossed(t: Table, id: int)
    requires Crossed(t.desc, t.dptr, t.res) && id in t.res && t.res[id].ptrs == []
    ensures Crossed(t.desc, t.dptr, t.res - {id})
  {
    var res := t.res - {id};
    forall d <- t.desc ensures Entered(d, t.desc, t.dptr, res) {
      assert Entered(d, t.desc, t.dptr, t.res);
    }
  }

  lemma ForgetQueued(t: Table, id: int, u: Table)
    requires Queued(t.queuePool, t.stranded, t.numMsg, t.res) && id in t.res
    requires Retired(t.res[id], t, u) && u.numMsg == t.numMsg && u.res == t.res - {id}
    ensures Queued(u.queuePool, u.stranded, u.numMsg, u.res)
  {
    var r := t.res[id];
    assert Bounded(r, t.queuePool, t.stranded, t.numMsg);
    if u.queuePool != t.queuePool {
      NoDupInsertedAt(t.queuePool, 0, r.kind.block);
      assert InsertedAt(t.queuePool, 0, r.kind.block) == u.queuePool;
    }
    forall i <- u.res ensures Bounded(u.res[i], u.queuePool, u.stranded, u.numMsg) {
      assert Bounded(t.res[i], t.queuePool, t.stranded, t.numMsg);
      assert SameBlock(t.res[i], r) ==> i == id;
    }
    forall i <- u.res, j <- u.res ensures SameBlock(u.res[i], u.res[j]) ==> i == j {
      assert SameBlock(t.res[i], t.res[j]) ==> i == j;
    }
  }

  lemma DestroyKeeps(t: Table, id: int)
    requires TableInv(t) && WellLinked(t)
    ensures TableInv(Destroy(t, id).table)
  {
    hide TableInv;
    if id in t.order && |t.res[id].ptrs| == 0 {
      ForgetKeeps(t, id, Destroy(t, id).table);
    }
  }

  lemma MqUnlinkKeeps(t: Table, id: int)
    requires TableInv(t) && UnlinkDefined(t, id)
    ensures TableInv(MqUnlink(t, id).table)
  {
    hide TableInv;
    if id in t.order && |t.res[id].ptrs| == 0 {
      ForgetKeeps(t, id, MqUnlink(t, id).table);
    }
  }

  // ---------- messages ----------

  lemma SetQueueKeeps(t: Table, id: int, messages: seq<int>, count: nat, messageFree: nat)
    requires TableInv(t) && IsQueue(t, id)
    requires |messages| <= count <= MQ_MAX_MSG_SIZE
    requires messageFree + |messages| == t.messageFree + |Messages(t, id)|
    ensures TableInv(SetQueue(t, id, messages, count).(messageFree := messageFree))
  {
    var u := SetQueue(t, id, messages, count);
    SetQueueCrossed(t, id, messages, count);
    SetQueueQueued(t, id, messages, count);
    assert NoDup(t.order) && id in t.order;
    forall k ensures Total(k, t.order, u.res) ==
      Total(k, t.order, t.res) - Weight(k, t.res[id]) + Weight(k, u.res[id]) {
      TotalUpdate(k, t.order, t.res, id, u.res[id]);
    }
    BooksMoved(t, u.(messageFree := messageFree));
    hide Owned, Crossed, Pooled, Queued, Names, Total;
  }

  lemma SetQueueCrossed(t: Table, id: int, messages: seq<int>, count: nat)
    requires Crossed(t.desc, t.dptr, t.res) && IsQueue(t, id)
    ensures Crossed(t.desc, t.dptr, SetQueue(t, id, messages, count).res)
  {
    var res := SetQueue(t, id, messages, count).res;
    forall d <- t.desc ensures Entered(d, t.desc, t.dptr, res) {
      assert Entered(d, t.desc, t.dptr, t.res);
    }
    forall i <- res ensures Listed(i, res[i].ptrs, t.desc, t.dptr) {
      assert Listed(i, t.res[i].ptrs, t.desc, t.dptr);
    }
  }

  lemma SetQueueQueued(t: Table, id: int, messages: seq<int>, count: nat)
    requires Queued(t.queuePool, t.stranded, t.numMsg, t.res) && IsQueue(t, id)
    requires |messages| <= count <= MQ_MAX_MSG_SIZE
    ensures var u := SetQueue(t, id, messages, count); Queued(u.queuePool, u.stranded, u.numMsg, u.res)
  {
    var u := SetQueue(t, id, messages, count);
    assert Bounded(t.res[id], t.queuePool, t.stranded, t.numMsg);
    forall i <- u.res ensures Bounded(u.res[i], u.queuePool, u.stranded, u.numMsg) {
      assert Bounded(t.res[i], t.queuePool, t.stranded, t.numMsg);
      assert SameBlock(t.res[i], t.res[id]) ==> i == id;
    }
    forall i <- u.res, j <- u.res ensures SameBlock(u.res[i], u.res[j]) ==> i == j {
      assert SameBlock(t.res[i], t.res[j]) ==> i == j;
    }
  }

  lemma EnqueueKeeps(t: Table, id: int, msg: int)
    requires TableInv(t) && IsQueue(t, id) && !Full(t, id) && t.messageFree > 0
    ensures TableInv(Enqueue(t, id, msg))
  {
    hide TableInv;
    QueueBounds(t, id);
    SetQueueKeeps(t, id, Messages(t, id) + [msg], Count(t, id) + 1, t.messageFree - 1);
  }

  lemma DequeueKeeps(t: Table, id: int)
    requires TableInv(t) && IsQueue(t, id) && !Empty(t, id) && Messages(t, id) != []
    ensures TableInv(Dequeue(t, id))
  {
    hide TableInv;
    QueueBounds(t, id);
    SetQueueKeeps(t, id, Messages(t, id)[1..], Count(t, id) - 1, t.messageFree + 1);
  }

  lemma QueueBounds(t: Table, id: int)
    requires TableInv(t) && IsQueue(t, id)
    ensures |Messages(t, id)| <= Count(t, id) <= MQ_MAX_MSG_SIZE
  {
    assert Bounded(t.res[id], t.queuePool, t.stranded, t.numMsg);
  }

  // ---------- processes ----------

  lemma NewProcessKeeps(t: Table, pid: nat)
    requires TableInv(t) && pid !in t.files && forall d <- t.desc :: t.desc[d].pid != pid
    ensures TableInv(NewProcess(t, pid))
  {
    hide Crossed, Pooled, Names, Queued, Total, Spare;
    var u := NewProcess(t, pid);
    BooksMoved(t, u);
    forall p <- u.files ensures Sound(p, u.files[p], u.desc) {
      assert p != pid ==> Sound(p, t.files[p], t.desc);
    }
  }

  lemma FreeProcessKeeps(t: Table, pid: nat)
    requires TableInv(t)
    ensures TableInv(FreeProcess(t, pid))
  {
    hide Crossed, Pooled, Names, Queued, Total, Spare;
    BooksMoved(t, FreeProcess(t, pid));
  }
}
