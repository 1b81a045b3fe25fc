/** What the calls that open, close, destroy and unlink do to the whole state, and what they answer, case by case. */
module OpenCalls {
  import opened Constants
  import opened Sequences
  import opened KernelSteps
  import opened KernelInvariant
  import opened Callers
  import opened QueueCalls
  import opened FdTables
  import P = Processes
  import R = Resources
  import J = ResourceInvariant

  /** `u` differs from `t` in descriptors only: who has which fds, and how many entries the resources have. */
  ghost predicate SameButFds(t: R.Table, u: R.Table) {
    && u.files.Keys == t.files.Keys && u.res.Keys == t.res.Keys
    && (forall i <- t.res :: u.res[i] == t.res[i].(ptrs := u.res[i].ptrs))
    && u == t.(desc := u.desc, descPool := u.descPool, dptr := u.dptr, ptrPool := u.ptrPool, files := u.files,
               res := u.res)
  }

  /** The next fd of `me` comes to lead to `id`, and every other fd of every process leads where it led. */
  ghost predicate Attached(t: R.Table, u: R.Table, me: nat, id: int) {
    && SameButFds(t, u) && me in t.files && id in t.res
    && (forall p <- t.files ::
          u.files[p].lastFd == t.files[p].lastFd + (if p == me then 1 else 0))
    && (forall i <- t.res :: |u.res[i].ptrs| == |t.res[i].ptrs| + (if i == id then 1 else 0))
    && |u.descPool| + 1 == |t.descPool| && |u.ptrPool| + 1 == |t.ptrPool|
    && (forall p: nat, fd: int, i: int :: Reaches(u, p, fd, i) <==>
          Reaches(t, p, fd, i) || (p == me && fd == t.files[me].lastFd && i == id))
  }

  lemma ReachesMeans(t: R.Table, p: nat, fd: int, id: int)
    requires J.TableInv(t)
    ensures R.WellLinked(t) && (Reaches(t, p, fd, id) <==> p in t.files && R.Target(t, p, fd) == Some(id))
  {
    J.InvLinked(t);
    if p in t.files {
      TargetMeans(t, p, fd);
    }
  }

  lemma LinkAttaches(t: R.Table, me: nat, id: int)
    requires J.TableInv(t) && me in t.files && id in t.res && t.descPool != [] && t.ptrPool != []
    ensures Attached(t, R.Link(t, me, id), me, id)
  {
    hide J.TableInv, R.Target, Reaches, R.WellLinked;
    var u := R.Link(t, me, id);
    J.LinkKeeps(t, me, id);
    forall p: nat, fd: int, i: int ensures Reaches(u, p, fd, i) <==>
      Reaches(t, p, fd, i) || (p == me && fd == t.files[me].lastFd && i == id)
    {
      ReachesMeans(t, p, fd, i);
      ReachesMeans(u, p, fd, i);
      if p in t.files {
        LinkTargets(t, me, id, p, fd);
      }
      NewFdUnused(t, me, i);
    }
  }

  lemma NewFdUnused(t: R.Table, me: nat, id: int)
    requires J.TableInv(t) && me in t.files
    ensures !Reaches(t, me, t.files[me].lastFd, id)
  {
    hide J.Names, J.Crossed, J.Pooled, J.Queued, J.Books;
    assert J.Sound(me, t.files[me], t.desc);
  }

  /** `fd` of `me` led to `id` and leads nowhere now; every other fd of every process leads where it led. */
  ghost predicate Detached(t: R.Table, u: R.Table, me: nat, fd: int, id: int) {
    && SameButFds(t, u) && id in t.res
    && (forall p <- t.files :: u.files[p].lastFd == t.files[p].lastFd)
    && (forall i <- t.res :: |u.res[i].ptrs| + (if i == id then 1 else 0) == |t.res[i].ptrs|)
    && |u.descPool| == |t.descPool| + 1 && |u.ptrPool| == |t.ptrPool| + 1
    && (forall p: nat, f: int, i: int :: Reaches(u, p, f, i) <==> Reaches(t, p, f, i) && !(p == me && f == fd))
  }

  lemma UnlinkDetaches(t: R.Table, me: nat, d: nat)
    requires J.TableInv(t) && R.WellLinked(t) && me in t.files && d in t.files[me].descs
    ensures Detached(t, R.Unlinked(t, me, d), me, t.desc[d].fd, t.desc[d].rid)
  {
    hide J.TableInv, R.Target, Reaches, R.WellLinked, NoDup;
    EntryListed(t, me, d);
    var u := R.Unlinked(t, me, d);
    J.UnlinkedKeeps(t, me, d);
    OneFewer(t.res[t.desc[d].rid].ptrs, t.desc[d].ptr);
    forall p: nat, f: int, i: int
      ensures Reaches(u, p, f, i) <==> Reaches(t, p, f, i) && !(p == me && f == t.desc[d].fd)
    {
      ReachesMeans(t, p, f, i);
      ReachesMeans(u, p, f, i);
      if p in t.files {
        UnlinkedTargets(t, me, d, p, f);
      }
    }
  }

  lemma EntryListed(t: R.Table, me: nat, d: nat)
    requires J.TableInv(t) && R.WellLinked(t) && me in t.files && d in t.files[me].descs
    ensures d in t.desc && t.desc[d].rid in t.res && t.desc[d].ptr in t.res[t.desc[d].rid].ptrs
    ensures NoDup(t.res[t.desc[d].rid].ptrs)
  {
    hide J.Names, J.Pooled, J.Queued, J.Books, NoDup;
    assert J.Sound(me, t.files[me], t.desc);
    assert J.Entered(d, t.desc, t.dptr, t.res);
    var id := t.desc[d].rid;
    assert J.Listed(id, t.res[id].ptrs, t.desc, t.dptr);
  }

  lemma OneFewer(s: seq<nat>, x: nat)
    requires NoDup(s) && x in s
    ensures |Minus(s, [x])| == |s| - 1
  {
    RemovedAtIsMinus(s, x);
  }

  // ---------- opening ----------

  /** The answer of an open that looks `id` up in `t` and leaves `u`: the caller's next fd, or an error by its cause. */
  ghost predicate LookedUp(t: R.Table, u: R.Table, me: nat, id: int, rtype: int, mode: int, code: int) {
    && me in t.files && (id in t.order ==> id in t.res)
    && if id !in t.order || t.res[id].rtype != rtype then u == t && code == DSOS_ERESOURCEOPEN
       else if Asks(mode, DSOS_EXCL) && t.res[id].ptrs != [] then u == t && code == DSOS_ERESOURCENOEXCL
       else if t.descPool == [] then u == t && code == DSOS_ERESOURCENOFD
       else Attached(t, u, me, id) && code == t.files[me].lastFd
  }

  lemma LookUpMeans(t: R.Table, me: nat, id: int, rtype: int, mode: int)
    requires J.TableInv(t) && me in t.files
    ensures (forall i <- t.order :: i in t.res) && (t.descPool != [] ==> t.ptrPool != [])
    ensures var out := R.OpenExisting(t, me, id, rtype, mode);
      LookedUp(t, out.table, me, id, rtype, mode, out.code)
  {
    hide J.TableInv, Attached, R.Link, R.HasExcl, Asks;
    J.InvLinked(t);
    FlagMeans(mode);
    if id in t.order && t.descPool != [] {
      LinkAttaches(t, me, id);
    }
  }

  /** `t` with a new plain resource, which takes a Resource block. */
  function WithPlain(t: R.Table, id: int, rtype: int): R.Table
    requires t.resourceFree > 0
  {
    t.(order := t.order + [id], res := t.res[id := R.Resource(rtype, [], R.Plain)], resourceFree := t.resourceFree - 1)
  }

  /** `t` with a new queue in the next queue block, whose count stays as it is. */
  function WithQueue(t: R.Table, id: int): R.Table
    requires t.resourceFree > 0 && t.queuePool != []
  {
    t.(order := t.order + [id], res := t.res[id := R.Resource(DSOS_MQ, [], R.Queue(t.queuePool[0], []))],
       resourceFree := t.resourceFree - 1, queuePool := t.queuePool[1..], queuesMade := t.queuesMade + 1)
  }

  /** open_resource: the bit DSOS_CREATE makes a new resource or fails on an old one. */
  ghost predicate PlainOpened(t: R.Table, u: R.Table, me: nat, id: int, rtype: int, mode: int, code: int) {
    if !Asks(mode, DSOS_CREATE) then LookedUp(t, u, me, id, rtype, mode, code)
    else if id in t.order then u == t && code == DSOS_ERESOURCECREATE
    else t.resourceFree > 0 && LookedUp(WithPlain(t, id, rtype), u, me, id, rtype, mode, code)
  }

  /** mq_open of a queue: only a mode that is DSOS_CREATE makes a new one. */
  ghost predicate QueueOpened(t: R.Table, u: R.Table, me: nat, id: int, mode: int, code: int) {
    if mode != DSOS_CREATE then LookedUp(t, u, me, id, DSOS_MQ, mode, code)
    else if id in t.order then u == t && code == DSOS_ERESOURCECREATE
    else
      && t.resourceFree > 0 && t.queuePool != []
      && LookedUp(WithQueue(t, id), u, me, id, DSOS_MQ, mode, code)
  }

  lemma PlainOpenMeans(t: R.Table, me: nat, id: int, rtype: int, mode: int)
    requires J.TableInv(t) && R.OpenDefined(t, me, id, rtype, mode)
    ensures var out := R.OpenResource(t, me, id, rtype, mode);
      PlainOpened(t, out.table, me, id, rtype, mode, out.code)
  {
    hide J.TableInv, LookedUp, R.OpenExisting, R.HasExcl, R.HasCreate, Asks;
    FlagMeans(mode);
    if R.HasCreate(mode) && id !in t.order {
      J.MakePlainKeeps(t, id, rtype);
      LookUpMeans(WithPlain(t, id, rtype), me, id, rtype, mode);
    } else if !R.HasCreate(mode) {
      LookUpMeans(t, me, id, rtype, mode);
    }
  }

  lemma QueueOpenMeans(t: R.Table, me: nat, id: int, mode: int)
    requires J.TableInv(t) && R.MqOpenDefined(t, me, id, DSOS_MQ, mode)
    ensures var out := R.MqOpen(t, me, id, DSOS_MQ, mode);
      QueueOpened(t, out.table, me, id, mode, out.code)
  {
    hide J.TableInv, LookedUp, R.OpenExisting;
    if mode != DSOS_CREATE {
      LookUpMeans(t, me, id, DSOS_MQ, mode);
    } else if id !in t.order {
      J.MakeQueueKeeps(t, id);
      LookUpMeans(WithQueue(t, id), me, id, DSOS_MQ, mode);
    }
  }

  /** mq_open with any other type: first an open of a plain resource, then, unless the mode is DSOS_CREATE, another. */
  ghost predicate TwiceOpened(t: R.Table, u: R.Table, me: nat, id: int, rtype: int, mode: int, code: int) {
    exists v: R.Table, first: int :: PlainOpened(t, v, me, id, rtype, mode, first)
      && if mode == DSOS_CREATE then u == v && code == DSOS_ERESOURCECREATE
         else LookedUp(v, u, me, id, rtype, mode, code)
  }

  lemma TwiceOpenMeans(t: R.Table, me: nat, id: int, rtype: int, mode: int)
    requires J.TableInv(t) && R.MqOpenDefined(t, me, id, rtype, mode) && rtype != DSOS_MQ
    ensures var out := R.MqOpen(t, me, id, rtype, mode);
      TwiceOpened(t, out.table, me, id, rtype, mode, out.code)
  {
    hide J.TableInv, LookedUp, PlainOpened, R.OpenExisting, R.OpenResource, R.OpenDefined;
    PlainOpenMeans(t, me, id, rtype, mode);
    R.OpenResourceShape(t, me, id, rtype, mode);
    var inner := R.OpenResource(t, me, id, rtype, mode);
    assert PlainOpened(t, inner.table, me, id, rtype, mode, inner.code);
    if mode != DSOS_CREATE {
      J.OpenResourceKeeps(t, me, id, rtype, mode);
      LookUpMeans(inner.table, me, id, rtype, mode);
    }
  }

  // ---------- closing, destroying and unlinking ----------

  /** An fd that leads nowhere is an error; any other leads nowhere afterwards. */
  ghost predicate Closed(t: R.Table, u: R.Table, me: nat, fd: int, code: int) {
    if forall id :: !Reaches(t, me, fd, id) then u == t && code == DSOS_ERESOURCECLOSE
    else code == 0 && exists id :: Reaches(t, me, fd, id) && Detached(t, u, me, fd, id)
  }

  lemma CloseMeansAll(t: R.Table, me: nat, fd: int)
    requires J.TableInv(t) && R.WellLinked(t) && me in t.files
    ensures var out := R.Close(t, me, fd); Closed(t, out.table, me, fd, out.code)
  {
    hide J.TableInv, Detached, Reaches, R.Unlinked, R.WellLinked;
    TargetMeans(t, me, fd);
    var d := R.ByFd(t.desc, t.files[me].descs, fd);
    if d.Some? {
      assert R.Target(t, me, fd) == Some(t.desc[d.value].rid);
      UnlinkDetaches(t, me, d.value);
    }
  }

  /** An id that is not listed, or that has entries, is an error; a plain resource goes back to its pool; a queue is
      only taken off the list, and its block keeps its messages. */
  ghost predicate Destroyed(t: R.Table, u: R.Table, id: int, code: int) {
    if id !in t.order then u == t && code == DSOS_ERESOURCECLOSE
    else
      && id in t.res
      && if t.res[id].ptrs != [] then u == t && code == DSOS_ERESOURCEINUSE
         else
           && code == 0
           && var off := t.(order := RemovedAt(t.order, IndexOf(t.order, id)), res := t.res - {id});
           match t.res[id].kind
           case Plain => u == off.(resourceFree := t.resourceFree + 1)
           case Queue(block, messages) =>
             u == off.(stranded := t.stranded[block := messages], lostMessages := t.lostMessages + |messages|)
  }

  /** The same errors; otherwise the queue is off the list, and its block and its message blocks are free. */
  ghost predicate Unlinked(t: R.Table, u: R.Table, id: int, code: int) {
    if id !in t.order then u == t && code == DSOS_ERESOURCECLOSE
    else
      && id in t.res && t.res[id].kind.Queue?
      && if t.res[id].ptrs != [] then u == t && code == DSOS_ERESOURCEINUSE
         else
           && code == 0
           && u == t.(order := RemovedAt(t.order, IndexOf(t.order, id)), res := t.res - {id},
                      queuePool := [t.res[id].kind.block] + t.queuePool,
                      messageFree := t.messageFree + |t.res[id].kind.messages|)
  }

  lemma RemovalMeans(t: R.Table, id: int)
    requires J.TableInv(t) && R.WellLinked(t)
    ensures var out := R.Destroy(t, id); Destroyed(t, out.table, id, out.code)
    ensures R.UnlinkDefined(t, id) ==> var out := R.MqUnlink(t, id); Unlinked(t, out.table, id, out.code)
  {
    if id in t.order {
      RemovedAtIsMinus(t.order, id);
    }
    hide J.Names, J.Owned, J.Crossed, J.Pooled, J.Queued, J.Books, NoDup, RemovedAt, IndexOf, Minus;
  }

  // ---------- the calls ----------

  /** Nothing happens to any process but that the caller gets a return value. */
  ghost predicate Replies(s: State, t: State, me: nat, num: int, argv: seq<int>) {
    me in t.ps.pcb && Answered(s.ps, t.ps, me, num, argv, t.ps.pcb[me].retvalue)
  }

  lemma ReplyMeans(s: State, e: Event, out: R.Outcome)
    requires KernelInv(s) && Enabled(s, e) && !e.Tick? && s.ps.running.Some? && P.CanRun(Recorded(s.ps, e))
    requires Step(s, e) == Returning(Recorded(s.ps, e), out)
    ensures var me, t := s.ps.running.value, Step(s, e);
      Replies(s, t, me, Number(e), Arguments(e)) && t.rs == out.table && t.ps.pcb[me].retvalue == out.code
  {
    hide KernelInv, R.WellLinked, P.Allocated, Step, Enabled;
    Calling(s, e);
    ReturnMeans(s.ps, Recorded(s.ps, e), s.ps.running.value, Number(e), Arguments(e), out.code);
  }

  lemma OpenResourceCall(s: State, id: int, rtype: int, mode: int)
    requires KernelInv(s) && Enabled(s, OpenResource(id, rtype, mode))
    ensures var me, t := s.ps.running.value, Step(s, OpenResource(id, rtype, mode));
      && Replies(s, t, me, DSOS_CALL_OPEN_RESOURCE, [id, rtype, mode])
      && PlainOpened(s.rs, t.rs, me, id, rtype, mode, t.ps.pcb[me].retvalue)
  {
    hide KernelInv, P.Allocated, R.WellLinked, R.OpenDefined, R.OpenResource, PlainOpened, P.Return, Replies;
    var e, me := OpenResource(id, rtype, mode), s.ps.running.value;
    Calling(s, e);
    assert J.TableInv(s.rs) by { InvHalves(s); }
    PlainOpenMeans(s.rs, me, id, rtype, mode);
    ReplyMeans(s, e, R.OpenResource(s.rs, me, id, rtype, mode));
  }

  lemma MqOpenCall(s: State, id: int, rtype: int, mode: int)
    requires KernelInv(s) && Enabled(s, MqOpen(id, rtype, mode))
    ensures var me, t := s.ps.running.value, Step(s, MqOpen(id, rtype, mode));
      && Replies(s, t, me, DSOS_MQ_OPEN, [id, rtype, mode])
      && if rtype == DSOS_MQ then QueueOpened(s.rs, t.rs, me, id, mode, t.ps.pcb[me].retvalue)
         else TwiceOpened(s.rs, t.rs, me, id, rtype, mode, t.ps.pcb[me].retvalue)
  {
    hide KernelInv, P.Allocated, R.WellLinked, R.MqOpenDefined, R.MqOpen, QueueOpened, TwiceOpened, P.Return, Replies;
    var e, me := MqOpen(id, rtype, mode), s.ps.running.value;
    Calling(s, e);
    assert J.TableInv(s.rs) by { InvHalves(s); }
    if rtype == DSOS_MQ {
      QueueOpenMeans(s.rs, me, id, mode);
    } else {
      TwiceOpenMeans(s.rs, me, id, rtype, mode);
    }
    ReplyMeans(s, e, R.MqOpen(s.rs, me, id, rtype, mode));
  }

  /** close_resource and mq_close. */
  lemma CloseCall(s: State, e: Event)
    requires KernelInv(s) && Enabled(s, e) && (e.CloseResource? || e.MqClose?)
    ensures var me, t := s.ps.running.value, Step(s, e);
      && Replies(s, t, me, if e.MqClose? then DSOS_MQ_CLOSE else DSOS_CALL_CLOSE_RESOURCE, [e.fd])
      && Closed(s.rs, t.rs, me, e.fd, t.ps.pcb[me].retvalue)
  {
    hide KernelInv, P.Allocated, R.WellLinked, R.Close, Closed, P.Return, Replies;
    var me := s.ps.running.value;
    Calling(s, e);
    assert J.TableInv(s.rs) by { InvHalves(s); }
    CloseMeansAll(s.rs, me, e.fd);
    ReplyMeans(s, e, R.Close(s.rs, me, e.fd));
  }

  lemma DestroyCall(s: State, id: int)
    requires KernelInv(s) && Enabled(s, DestroyResource(id))
    ensures var me, t := s.ps.running.value, Step(s, DestroyResource(id));
      && Replies(s, t, me, DSOS_CALL_DESTROY_RESOURCE, [id])
      && Destroyed(s.rs, t.rs, id, t.ps.pcb[me].retvalue)
  {
    hide KernelInv, P.Allocated, R.WellLinked, R.Destroy, Destroyed, P.Return, Replies;
    Calling(s, DestroyResource(id));
    assert J.TableInv(s.rs) by { InvHalves(s); }
    RemovalMeans(s.rs, id);
    ReplyMeans(s, DestroyResource(id), R.Destroy(s.rs, id));
  }

  lemma UnlinkCall(s: State, id: int)
    requires KernelInv(s) && Enabled(s, MqUnlink(id))
    ensures var me, t := s.ps.running.value, Step(s, MqUnlink(id));
      && Replies(s, t, me, DSOS_MQ_UNLINK, [id])
      && Unlinked(s.rs, t.rs, id, t.ps.pcb[me].retvalue)
  {
    hide KernelInv, P.Allocated, R.WellLinked, R.MqUnlink, R.UnlinkDefined, Unlinked, P.Return, Replies;
    Calling(s, MqUnlink(id));
    assert J.TableInv(s.rs) by { InvHalves(s); }
    RemovalMeans(s.rs, id);
    ReplyMeans(s, MqUnlink(id), R.MqUnlink(s.rs, id));
  }
}
