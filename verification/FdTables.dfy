/** Descriptor tables as maps: what an fd of a process leads to, and how the calls change it. */
module FdTables {
  import opened Constants
  import opened Sequences
  import opened Resources
  import D = Descriptors
  import J = ResourceInvariant

  lemma {:induction false} ByFdSame(a: map<nat, Desc>, b: map<nat, Desc>, ds: seq<nat>, fd: int)
    requires forall d <- ds :: d in a && d in b && a[d].fd == b[d].fd
    ensures ByFd(a, ds, fd) == ByFd(b, ds, fd)
  {
    if ds != [] {
      ByFdSame(a, b, ds[1..], fd);
    }
  }

  lemma {:induction false} ByFdSnoc(desc: map<nat, Desc>, ds: seq<nat>, d: nat, fd: int)
    requires d in desc && forall e <- ds :: e in desc
    ensures ByFd(desc, ds + [d], fd) ==
      if ByFd(desc, ds, fd).Some? then ByFd(desc, ds, fd) else if desc[d].fd == fd then Some(d) else None
  {
    if ds != [] {
      assert (ds + [d])[1..] == ds[1..] + [d];
      ByFdSnoc(desc, ds[1..], d, fd);
    }
  }

  lemma {:induction false} ByFdMinus(desc: map<nat, Desc>, ds: seq<nat>, d: nat, fd: int)
    requires d in desc && desc[d].fd != fd && forall e <- ds :: e in desc
    ensures ByFd(desc, Minus(ds, [d]), fd) == ByFd(desc, ds, fd)
  {
    if ds != [] {
      ByFdMinus(desc, ds[1..], d, fd);
    }
  }

  /** Linking gives the caller's next fd to the resource and changes what no other fd leads to. */
  lemma LinkTargets(t: Table, pid: nat, id: int, p: nat, fd: int)
    requires J.TableInv(t) && pid in t.files && id in t.res && t.descPool != [] && t.ptrPool != [] && p in t.files
    ensures WellLinked(t) && WellLinked(Link(t, pid, id))
    ensures Target(Link(t, pid, id), p, fd) ==
      if p == pid && fd == t.files[pid].lastFd then Some(id) else Target(t, p, fd)
  {
    hide J.Names, J.Crossed, J.Queued, J.Books;
    J.InvLinked(t);
    var u, d := Link(t, pid, id), t.descPool[0];
    assert WellLinked(u) by { J.LinkKeeps(t, pid, id); J.InvLinked(u); }
    assert J.Sound(p, t.files[p], t.desc) && J.Sound(pid, t.files[pid], t.desc);
    assert d !in t.desc;
    ByFdSame(t.desc, u.desc, t.files[p].descs, fd);
    if p == pid {
      ByFdSnoc(u.desc, t.files[p].descs, d, fd);
    }
  }

  /** What an open leaves, given the table in which it looks `id` up: nothing changed and an error, or the
      process's next fd leading to the resource and every other fd leading where it led. */
  ghost predicate Opened(t: Table, out: Outcome, pid: nat, id: int, rtype: int, mode: int) {
    && WellLinked(t) && pid in t.files && out.table.order == t.order
    && if !Openable(t, id, rtype, mode) then out == Outcome(t, Refusal(t, id, rtype, mode))
       else
         && out.code == t.files[pid].lastFd && out.table.files.Keys == t.files.Keys && WellLinked(out.table)
         && forall p <- t.files, fd: int ::
              Target(out.table, p, fd) == if p == pid && fd == out.code then Some(id) else Target(t, p, fd)
  }

  /** The bit of weight `flag` is set in `mode`, negative or not: counting up, it is in the later half of every
      2 * flag numbers. */
  predicate Asks(mode: int, flag: nat)
    requires flag > 0
  {
    mode % (2 * flag) >= flag
  }

  lemma FlagMeans(mode: int)
    ensures HasCreate(mode) <==> Asks(mode, DSOS_CREATE)
    ensures HasExcl(mode) <==> Asks(mode, DSOS_EXCL)
  {
    assert mode / 4 == 2 * (mode / 8) + (mode % 8) / 4;
  }

  /** When a lookup of `id` by a call of this type and mode finds something it may open. */
  predicate Openable(t: Table, id: int, rtype: int, mode: int) {
    && id in t.order && id in t.res && t.res[id].rtype == rtype
    && (Asks(mode, DSOS_EXCL) ==> t.res[id].ptrs == []) && t.descPool != []
  }

  /** The error when it does not. */
  function Refusal(t: Table, id: int, rtype: int, mode: int): int {
    if id !in t.order || id !in t.res || t.res[id].rtype != rtype then DSOS_ERESOURCEOPEN
    else if Asks(mode, DSOS_EXCL) && t.res[id].ptrs != [] then DSOS_ERESOURCENOEXCL
    else DSOS_ERESOURCENOFD
  }

  lemma OpenExistingMeans(t: Table, pid: nat, id: int, rtype: int, mode: int)
    requires J.TableInv(t) && pid in t.files
    ensures WellLinked(t) && (t.descPool != [] ==> t.ptrPool != [])
    ensures var out := OpenExisting(t, pid, id, rtype, mode);
      && Opened(t, out, pid, id, rtype, mode)
      && (out.code >= 0 <==> Openable(t, id, rtype, mode))
  {
    hide J.TableInv, Target, HasExcl, HasCreate, Asks;
    FlagMeans(mode);
    J.InvLinked(t);
    if id in t.order && t.descPool != [] {
      forall p <- t.files, fd: int
        ensures Target(Link(t, pid, id), p, fd) ==
          if p == pid && fd == t.files[pid].lastFd then Some(id) else Target(t, p, fd)
      {
        LinkTargets(t, pid, id, p, fd);
      }
      LinkTargets(t, pid, id, pid, 0);
    }
  }

  /** A new resource that nobody refers to: no fd leads to it. */
  lemma AddedTargets(t: Table, u: Table, p: nat, fd: int)
    requires WellLinked(t) && WellLinked(u) && p in t.files && u.files == t.files && u.desc == t.desc
    ensures Target(u, p, fd) == Target(t, p, fd)
  {
  }

  /** What an open that has to create the resource leaves: the resource is listed in any case; with a descriptor
      left exactly the process's next fd comes to lead to it, and otherwise no fd of anybody changes. */
  ghost predicate OpenedNew(t: Table, out: Outcome, pid: nat, id: int) {
    && WellLinked(t) && WellLinked(out.table) && pid in t.files && out.table.files.Keys == t.files.Keys
    && out.table.order == t.order + [id]
    && out.code == (if t.descPool == [] then DSOS_ERESOURCENOFD else t.files[pid].lastFd)
    && forall p <- t.files, fd: int ::
         Target(out.table, p, fd) ==
           if t.descPool != [] && p == pid && fd == t.files[pid].lastFd then Some(id) else Target(t, p, fd)
  }

  lemma OpenedNewFrom(t: Table, made: Table, out: Outcome, pid: nat, id: int, rtype: int, mode: int)
    requires WellLinked(t) && WellLinked(made) && pid in t.files
    requires made.files == t.files && made.desc == t.desc && made.order == t.order + [id] && made.descPool == t.descPool
    requires Opened(made, out, pid, id, rtype, mode) && (out.code >= 0 <==> made.descPool != [])
    requires out.code < 0 ==> out.code == DSOS_ERESOURCENOFD
    ensures OpenedNew(t, out, pid, id)
  {
    hide WellLinked, Target;
    forall p <- t.files, fd: int ensures Target(made, p, fd) == Target(t, p, fd) {
      AddedTargets(t, made, p, fd);
    }
  }

  lemma MadeQueueOpens(t: Table, pid: nat, id: int, rtype: int, mode: int)
    requires J.TableInv(t) && WellLinked(t) && pid in t.files && id !in t.order && rtype == DSOS_MQ && !HasExcl(mode)
    requires t.queuePool != [] && t.resourceFree > 0 && (t.descPool != [] ==> t.ptrPool != [])
    ensures OpenedNew(t, OpenExisting(MakeQueue(t, id), pid, id, rtype, mode), pid, id)
  {
    hide J.TableInv, Opened, OpenedNew;
    J.MakeQueueKeeps(t, id);
    J.InvLinked(MakeQueue(t, id));
    OpenExistingMeans(MakeQueue(t, id), pid, id, rtype, mode);
    OpenedNewFrom(t, MakeQueue(t, id), OpenExisting(MakeQueue(t, id), pid, id, rtype, mode), pid, id, rtype, mode);
  }

  lemma MadePlainOpens(t: Table, pid: nat, id: int, rtype: int, mode: int)
    requires J.TableInv(t) && WellLinked(t) && pid in t.files && id !in t.order && rtype != DSOS_MQ
    requires t.resourceFree > 0 && (t.descPool != [] ==> t.ptrPool != [])
    ensures var made := AddResource(t, id, Resource(rtype, [], Plain)).(resourceFree := t.resourceFree - 1);
      OpenedNew(t, OpenExisting(made, pid, id, rtype, mode), pid, id)
  {
    hide J.TableInv, Opened, OpenedNew;
    var made := AddResource(t, id, Resource(rtype, [], Plain)).(resourceFree := t.resourceFree - 1);
    J.MakePlainKeeps(t, id, rtype);
    J.InvLinked(made);
    OpenExistingMeans(made, pid, id, rtype, mode);
    OpenedNewFrom(t, made, OpenExisting(made, pid, id, rtype, mode), pid, id, rtype, mode);
  }

  /** openResource: the DSOS_CREATE bit asks for creation, whatever else is in the mode. */
  lemma OpenResourceMeans(t: Table, pid: nat, id: int, rtype: int, mode: int)
    requires J.TableInv(t) && OpenDefined(t, pid, id, rtype, mode)
    ensures var out := OpenResource(t, pid, id, rtype, mode);
      if !Asks(mode, DSOS_CREATE) then
        Opened(t, out, pid, id, rtype, mode) && (out.code >= 0 <==> Openable(t, id, rtype, mode))
      else if id in t.order then out == Outcome(t, DSOS_ERESOURCECREATE)
      else OpenedNew(t, out, pid, id)
  {
    hide J.TableInv, Opened, OpenedNew, OpenExisting, HasExcl, Asks;
    FlagMeans(mode);
    if !HasCreate(mode) {
      OpenExistingMeans(t, pid, id, rtype, mode);
    } else if id !in t.order {
      MadePlainOpens(t, pid, id, rtype, mode);
    }
  }

  /** mq_open of a queue: only a mode equal to DSOS_CREATE creates. */
  lemma MqOpenMeans(t: Table, pid: nat, id: int, mode: int)
    requires J.TableInv(t) && MqOpenDefined(t, pid, id, DSOS_MQ, mode)
    ensures var out := MqOpen(t, pid, id, DSOS_MQ, mode);
      if mode != DSOS_CREATE then
        Opened(t, out, pid, id, DSOS_MQ, mode) && (out.code >= 0 <==> Openable(t, id, DSOS_MQ, mode))
      else if id in t.order then out == Outcome(t, DSOS_ERESOURCECREATE)
      else OpenedNew(t, out, pid, id)
  {
    hide J.TableInv, Opened, OpenedNew, OpenExisting;
    if mode != DSOS_CREATE {
      OpenExistingMeans(t, pid, id, DSOS_MQ, mode);
    } else if id !in t.order {
      MadeQueueOpens(t, pid, id, DSOS_MQ, mode);
    }
  }

  /** mq_open with any other type opens a resource first. With DSOS_CREATE it then always reports that the id
      exists, even when it has just created the resource and used up an fd for it; with any other mode it goes on to
      open the resource a second time. */
  lemma MqOpenOtherType(t: Table, pid: nat, id: int, rtype: int, mode: int)
    requires J.TableInv(t) && MqOpenDefined(t, pid, id, rtype, mode) && rtype != DSOS_MQ
    ensures var out, first := MqOpen(t, pid, id, rtype, mode), OpenResource(t, pid, id, rtype, mode);
      if mode == DSOS_CREATE then out == Outcome(first.table, DSOS_ERESOURCECREATE)
      else
        && Opened(first.table, out, pid, id, rtype, mode)
        && (out.code >= 0 <==> Openable(first.table, id, rtype, mode))
  {
    hide J.TableInv, Opened, OpenExisting, OpenResource;
    OpenResourceShape(t, pid, id, rtype, mode);
    if mode != DSOS_CREATE {
      J.OpenResourceKeeps(t, pid, id, rtype, mode);
      OpenExistingMeans(OpenResource(t, pid, id, rtype, mode).table, pid, id, rtype, mode);
    }
  }

  lemma UnlinkedTargets(t: Table, pid: nat, d: nat, p: nat, fd: int)
    requires J.TableInv(t) && WellLinked(t) && pid in t.files && d in t.files[pid].descs && p in t.files
    ensures WellLinked(Unlinked(t, pid, d)) && p in Unlinked(t, pid, d).files
    ensures Target(Unlinked(t, pid, d), p, fd) == if p == pid && fd == t.desc[d].fd then None else Target(t, p, fd)
  {
    hide J.Names, J.Crossed, J.Queued, J.Books, J.Pooled, Minus, NoDup;
    var u := Unlinked(t, pid, d);
    assert WellLinked(u) by { J.UnlinkedKeeps(t, pid, d); J.InvLinked(u); }
    assert J.Sound(p, t.files[p], t.desc) && J.Sound(pid, t.files[pid], t.desc);
    ByFdSame(t.desc, u.desc, u.files[p].descs, fd);
    if p == pid && fd != t.desc[d].fd {
      ByFdMinus(t.desc, t.files[p].descs, d, fd);
    }
  }

  /** Closing an fd makes it lead nowhere and leaves every other fd alone; an unknown fd changes nothing. */
  lemma CloseMeans(t: Table, pid: nat, fd: int, p: nat, g: int)
    requires J.TableInv(t) && WellLinked(t) && pid in t.files && p in t.files
    ensures var out := Close(t, pid, fd);
      if Target(t, pid, fd) == None then out == Outcome(t, DSOS_ERESOURCECLOSE)
      else
        && out.code == 0 && WellLinked(out.table) && p in out.table.files
        && Target(out.table, p, g) == if p == pid && g == fd then None else Target(t, p, g)
  {
    hide J.TableInv, Unlinked;
    var d := ByFd(t.desc, t.files[pid].descs, fd);
    if d.Some? {
      UnlinkedTargets(t, pid, d.value, p, g);
    }
  }

  // ---------- opening, then closing ----------

  /** `t` but for one fd more handed out to `pid`. */
  function FdUsed(t: Table, pid: nat): Table
    requires pid in t.files
  {
    t.(files := t.files[pid := t.files[pid].(lastFd := t.files[pid].lastFd + 1)])
  }

  lemma OpenThenClose(t: Table, pid: nat, id: int, rtype: int, mode: int)
    requires J.TableInv(t) && pid in t.files
    ensures WellLinked(t) && (t.descPool != [] ==> t.ptrPool != [])
    ensures var out := OpenExisting(t, pid, id, rtype, mode);
      out.code >= 0 ==>
        && pid in out.table.files && WellLinked(out.table)
        && Close(out.table, pid, out.code) == Outcome(FdUsed(t, pid), 0)
  {
    hide J.TableInv, WellLinked, Unlinked, Link;
    J.InvLinked(t);
    if OpenExisting(t, pid, id, rtype, mode).code >= 0 {
      D.LinkThenUnlink(t, pid, id);
      NewFdFound(t, pid, id);
    }
  }

  lemma NewFdFound(t: Table, pid: nat, id: int)
    requires J.TableInv(t) && pid in t.files && id in t.res && t.descPool != [] && t.ptrPool != []
    ensures var u := Link(t, pid, id);
      && pid in u.files && WellLinked(u)
      && ByFd(u.desc, u.files[pid].descs, t.files[pid].lastFd) == Some(t.descPool[0])
  {
    hide J.Names, J.Crossed, J.Queued, J.Books;
    var u, d, fd := Link(t, pid, id), t.descPool[0], t.files[pid].lastFd;
    LinkTargets(t, pid, id, pid, fd);
    assert J.Sound(pid, t.files[pid], t.desc);
    assert d in t.descPool;
    ByFdSame(t.desc, u.desc, t.files[pid].descs, fd);
    ByFdSnoc(u.desc, t.files[pid].descs, d, fd);
  }

  /** A successful openResource followed by a close of the fd it returned: all is as before, but for the fd used up
      and, if the call created it, the resource. */
  lemma OpenResourceThenClose(t: Table, pid: nat, id: int, rtype: int, mode: int)
    requires J.TableInv(t) && OpenDefined(t, pid, id, rtype, mode)
    ensures var out := OpenResource(t, pid, id, rtype, mode);
      out.code >= 0 ==>
        && pid in out.table.files && WellLinked(out.table)
        && Close(out.table, pid, out.code) == Outcome(FdUsed(if HasCreate(mode)
             then AddResource(t, id, Resource(rtype, [], Plain)).(resourceFree := t.resourceFree - 1) else t, pid), 0)
  {
    hide J.TableInv, WellLinked, Close, OpenExisting;
    if HasCreate(mode) {
      if id !in t.order {
        J.MakePlainKeeps(t, id, rtype);
        OpenThenClose(AddResource(t, id, Resource(rtype, [], Plain)).(resourceFree := t.resourceFree - 1),
                      pid, id, rtype, mode);
      }
    } else {
      OpenThenClose(t, pid, id, rtype, mode);
    }
  }

  lemma MqOpenThenClose(t: Table, pid: nat, id: int, mode: int)
    requires J.TableInv(t) && MqOpenDefined(t, pid, id, DSOS_MQ, mode)
    ensures var out := MqOpen(t, pid, id, DSOS_MQ, mode);
      out.code >= 0 ==>
        && pid in out.table.files && WellLinked(out.table)
        && Close(out.table, pid, out.code)
          == Outcome(FdUsed(if mode == DSOS_CREATE then MakeQueue(t, id) else t, pid), 0)
  {
    hide J.TableInv, WellLinked, Close, OpenExisting;
    if mode == DSOS_CREATE {
      if id !in t.order {
        J.MakeQueueKeeps(t, id);
        OpenThenClose(MakeQueue(t, id), pid, id, DSOS_MQ, mode);
      }
    } else {
      OpenThenClose(t, pid, id, DSOS_MQ, mode);
    }
  }
}
