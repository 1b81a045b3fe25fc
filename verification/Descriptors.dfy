/** Descriptors over whole runs: who holds what, what leaks, and which fds are spent. */
module Descriptors {
  import opened Constants
  import opened Sequences
  import opened KernelSteps
  import opened KernelInvariant
  import opened TableCalls
  import opened Resources
  import P = Processes
  import I = ProcessInvariant
  import J = ResourceInvariant

  ghost predicate Holds(t: Table, p: nat, id: int) {
    p in t.files && exists d <- t.files[p].descs :: d in t.desc && t.desc[d].rid == id
  }

  /** Every allocated descriptor is on the list of an allocated process. */
  ghost predicate NoLeak(t: Table) {
    forall d <- t.desc :: t.desc[d].pid in t.files
  }

  // ---------- destroying ----------

  /** The entry list of a resource is empty exactly when no allocated descriptor refers to it. */
  lemma EntriesMeanDescriptors(t: Table, id: int)
    requires J.TableInv(t) && id in t.res
    ensures t.res[id].ptrs == [] <==> forall d <- t.desc :: t.desc[d].rid != id
  {
    hide J.Names, J.Owned, J.Pooled, J.Queued, J.Books;
    assert J.Listed(id, t.res[id].ptrs, t.desc, t.dptr);
    if t.res[id].ptrs != [] {
      assert J.Backed(t.res[id].ptrs[0], id, t.desc, t.dptr);
    }
    forall d <- t.desc ensures J.Entered(d, t.desc, t.dptr, t.res) {
    }
  }

  lemma DescriptorsMeanHolders(t: Table, id: int)
    requires J.TableInv(t) && NoLeak(t)
    ensures (forall d <- t.desc :: t.desc[d].rid != id) <==> forall p <- t.files :: !Holds(t, p, id)
  {
    hide J.Names, J.Crossed, J.Pooled, J.Queued, J.Books;
    forall p <- t.files | Holds(t, p, id) ensures exists d <- t.desc :: t.desc[d].rid == id {
    }
    if d :| d in t.desc && t.desc[d].rid == id {
      assert d in t.files[t.desc[d].pid].descs;
      assert Holds(t, t.desc[d].pid, id);
    }
  }

  /** Without leaks a resource can be destroyed exactly when no process holds it. */
  lemma DestroyWhenUnheld(t: Table, id: int)
    requires J.TableInv(t) && WellLinked(t) && NoLeak(t) && id in t.order
    ensures Destroy(t, id).code == 0 <==> forall p <- t.files :: !Holds(t, p, id)
    ensures Destroy(t, id).code != 0 ==> Destroy(t, id) == Outcome(t, DSOS_ERESOURCEINUSE)
  {
    hide J.TableInv, NoLeak;
    EntriesMeanDescriptors(t, id);
    DescriptorsMeanHolders(t, id);
  }

  lemma UnlinkWhenUnheld(t: Table, id: int)
    requires J.TableInv(t) && NoLeak(t) && UnlinkDefined(t, id) && id in t.order
    ensures Resources.MqUnlink(t, id).code == 0 <==> forall p <- t.files :: !Holds(t, p, id)
    ensures Resources.MqUnlink(t, id).code != 0 ==> Resources.MqUnlink(t, id) == Outcome(t, DSOS_ERESOURCEINUSE)
  {
    hide J.TableInv, NoLeak;
    EntriesMeanDescriptors(t, id);
    DescriptorsMeanHolders(t, id);
  }

  // ---------- opening and closing ----------

  lemma NextBlocksUnused(t: Table, pid: nat, id: int)
    requires J.TableInv(t) && pid in t.files && id in t.res && t.descPool != [] && t.ptrPool != []
    ensures t.descPool[0] !in t.desc && t.ptrPool[0] !in t.dptr
    ensures t.descPool[0] !in t.files[pid].descs && t.ptrPool[0] !in t.res[id].ptrs
  {
    hide J.Names, J.Queued, J.Books;
    assert t.descPool[0] in t.descPool && t.ptrPool[0] in t.ptrPool;
    assert J.Sound(pid, t.files[pid], t.desc);
    assert J.Listed(id, t.res[id].ptrs, t.desc, t.dptr);
    assert forall x <- t.res[id].ptrs :: J.Backed(x, id, t.desc, t.dptr);
  }

  lemma OpenThenCloseBlocks(t: Table, pid: nat, id: int)
    requires J.TableInv(t) && pid in t.files && id in t.res && t.descPool != [] && t.ptrPool != []
    ensures t.descPool[0] in Link(t, pid, id).desc && Link(t, pid, id).desc[t.descPool[0]].rid in Link(t, pid, id).res
    ensures var v := Unlinked(Link(t, pid, id), pid, t.descPool[0]);
      v.desc == t.desc && v.dptr == t.dptr && v.descPool == t.descPool && v.ptrPool == t.ptrPool
  {
    hide J.TableInv, Minus;
    NextBlocksUnused(t, pid, id);
    PutThenDrop(t.desc, t.descPool[0], Desc(pid, t.files[pid].lastFd, id, t.ptrPool[0]));
    PutThenDrop(t.dptr, t.ptrPool[0], t.descPool[0]);
  }

  lemma OpenThenCloseLists(t: Table, pid: nat, id: int)
    requires J.TableInv(t) && pid in t.files && id in t.res && t.descPool != [] && t.ptrPool != []
    ensures t.descPool[0] in Link(t, pid, id).desc && Link(t, pid, id).desc[t.descPool[0]].rid in Link(t, pid, id).res
    ensures var v := Unlinked(Link(t, pid, id), pid, t.descPool[0]);
      v.res == t.res && v.files == t.files[pid := t.files[pid].(lastFd := t.files[pid].lastFd + 1)]
  {
    hide J.TableInv, Minus;
    NextBlocksUnused(t, pid, id);
    MinusLast(t.files[pid].descs, t.descPool[0]);
    MinusLast(t.res[id].ptrs, t.ptrPool[0]);
  }

  /** Unlinking what was just linked restores everything but last_fd: both pools, both lists, both block maps. */
  lemma LinkThenUnlink(t: Table, pid: nat, id: int)
    requires J.TableInv(t) && pid in t.files && id in t.res && t.descPool != [] && t.ptrPool != []
    ensures t.descPool[0] in Link(t, pid, id).desc && Link(t, pid, id).desc[t.descPool[0]].rid in Link(t, pid, id).res
    ensures Unlinked(Link(t, pid, id), pid, t.descPool[0]) ==
      t.(files := t.files[pid := t.files[pid].(lastFd := t.files[pid].lastFd + 1)])
  {
    hide J.TableInv, Minus;
    OpenThenCloseBlocks(t, pid, id);
    OpenThenCloseLists(t, pid, id);
  }

  lemma PutThenDrop<K, V>(m: map<K, V>, k: K, v: V)
    requires k !in m
    ensures m[k := v] - {k} == m
  {
  }

  // ---------- leaks ----------

  /** wait reaps a zombie that still holds descriptors. */
  ghost predicate ReapsHolder(s: State)
    requires P.WaitDefined(s.ps)
  {
    var cs := s.ps.pcb[s.ps.running.value].children;
    cs != [] &&
    var c := cs[P.AwaitedIndex(s.ps)];
    s.ps.pcb[c].status == P.Zombie && c in s.rs.files && s.rs.files[c].descs != []
  }

  lemma WaitLeaks(s: State)
    requires KernelInv(s) && P.WaitDefined(s.ps) && NoLeak(s.rs)
    ensures NoLeak(WaitCall(s).rs) <==> !ReapsHolder(s)
  {
    hide I.Inv, J.Names, J.Crossed, J.Pooled, J.Queued, J.Books, P.Wait;
    var cs := s.ps.pcb[s.ps.running.value].children;
    if cs != [] && s.ps.pcb[cs[P.AwaitedIndex(s.ps)]].status == P.Zombie {
      var c := cs[P.AwaitedIndex(s.ps)];
      assert J.Sound(c, s.rs.files[c], s.rs.desc);
      if s.rs.files[c].descs != [] {
        assert s.rs.files[c].descs[0] in s.rs.files[c].descs;
      }
    }
  }

  lemma OpenNoLeak(t: Table, pid: nat, id: int, rtype: int, mode: int)
    requires pid in t.files && (forall i <- t.order :: i in t.res) && (t.descPool != [] ==> t.ptrPool != [])
    requires NoLeak(t)
    ensures NoLeak(OpenExisting(t, pid, id, rtype, mode).table)
  {
  }

  lemma OpenResourceNoLeak(t: Table, pid: nat, id: int, rtype: int, mode: int)
    requires NoLeak(t) && OpenDefined(t, pid, id, rtype, mode)
    ensures NoLeak(R.OpenResource(t, pid, id, rtype, mode).table)
  {
    hide OpenExisting;
    if HasCreate(mode) && id !in t.order {
      var made := AddResource(t, id, Resource(rtype, [], Plain)).(resourceFree := t.resourceFree - 1);
      OpenNoLeak(made, pid, id, rtype, mode);
    } else {
      OpenNoLeak(t, pid, id, rtype, mode);
    }
  }

  lemma MqOpenNoLeak(t: Table, pid: nat, id: int, rtype: int, mode: int)
    requires NoLeak(t) && MqOpenDefined(t, pid, id, rtype, mode)
    ensures NoLeak(R.MqOpen(t, pid, id, rtype, mode).table)
  {
    hide OpenExisting, R.OpenResource;
    var u := t;
    if rtype != DSOS_MQ {
      u := R.OpenResource(t, pid, id, rtype, mode).table;
      OpenResourceShape(t, pid, id, rtype, mode);
      OpenResourceNoLeak(t, pid, id, rtype, mode);
    }
    OpenNoLeak(if mode == DSOS_CREATE && id !in u.order then MakeQueue(u, id) else u, pid, id, rtype, mode);
  }

  /** Calls other than wait never leak. */
  lemma TableCallNoLeak(t: Table, u: Table, pid: nat, e: Event)
    requires J.TableInv(t) && NoLeak(t) && TableCall(t, u, pid, e) && !e.Wait?
    ensures NoLeak(u)
  {
    hide J.TableInv, Minus, NoDup, R.OpenResource, R.MqOpen, OpenDefined, MqOpenDefined;
    if e.OpenResource? {
      OpenResourceNoLeak(t, pid, e.id, e.rtype, e.mode);
    } else if e.MqOpen? {
      MqOpenNoLeak(t, pid, e.id, e.rtype, e.mode);
    } else if e.Exit? && u != t {
      J.CloseAllKeeps(t, pid, t.files[pid].descs);
      ClosedOwnsNothing(CloseAll(t, pid, t.files[pid].descs), pid);
      CloseAllShrinks(t, pid, t.files[pid].descs);
    }
  }

  lemma ClosedOwnsNothing(t: Table, pid: nat)
    requires J.TableInv(t) && pid in t.files && t.files[pid].descs == []
    ensures forall d <- t.desc :: t.desc[d].pid != pid
  {
    hide J.Names, J.Crossed, J.Pooled, J.Queued, J.Books;
  }

  ghost predicate LeaksAt(s: State, e: Event) {
    Enabled(s, e) && e.Wait? && ReapsHolder(s.(ps := Recorded(s.ps, e)))
  }

  /** A step leaks descriptors exactly when it is a wait that reaps a zombie holding some. */
  lemma StepNoLeak(s: State, e: Event)
    requires KernelInv(s) && Enabled(s, e) && NoLeak(s.rs)
    ensures NoLeak(Step(s, e).rs) <==> !LeaksAt(s, e)
  {
    hide KernelInv, NoLeak, TableCall, SendCall, ReceiveCall, WaitCall, J.TableInv, ReapsHolder;
    if !e.Tick? {
      RecordedInv(s, e);
      var r := s.(ps := Recorded(s.ps, e));
      if e.Wait? {
        WaitLeaks(r);
      } else if e.MqSend? {
        SendKeepsDescriptors(r, Target(s.rs, s.ps.running.value, e.fd), e.msg);
        NoLeakSame(s.rs, Step(s, e).rs);
      } else if e.MqReceive? {
        ReceiveKeepsDescriptors(r, Target(s.rs, s.ps.running.value, e.fd));
        NoLeakSame(s.rs, Step(s, e).rs);
      } else {
        InvHalves(s);
        HandleIsTableCall(r, e);
        TableCallNoLeak(s.rs, Handle(r, e).rs, s.ps.running.value, e);
      }
    }
  }

  lemma NoLeakSame(t: Table, u: Table)
    requires NoLeak(t) && u.desc == t.desc && u.files == t.files
    ensures NoLeak(u)
  {
  }

  lemma SendKeepsDescriptors(s: State, target: Option<int>, msg: int)
    requires P.CanRun(s.ps) && SendDefined(s.ps, s.rs, target)
    ensures var u := SendCall(s, target, msg).rs; u.desc == s.rs.desc && u.files == s.rs.files
  {
    hide P.BlockOnQueue, P.Return;
  }

  lemma ReceiveKeepsDescriptors(s: State, target: Option<int>)
    requires P.CanRun(s.ps) && ReceiveDefined(s.ps, s.rs, target)
    ensures var u := ReceiveCall(s, target).rs; u.desc == s.rs.desc && u.files == s.rs.files
  {
    hide P.BlockOnQueue, P.Return;
  }

  // ---------- a leak is for ever ----------

  /** Descriptor `d` belongs to a process that is gone. */
  ghost predicate Leaked(s: State, d: nat) {
    d in s.rs.desc && s.rs.desc[d].pid !in s.rs.files
  }

  lemma {:induction false} CloseAllSpares(t: Table, pid: nat, ds: seq<nat>, d: nat)
    requires pid in t.files && NoDup(ds) && forall x <- ds :: x in t.desc && t.desc[x].rid in t.res
    requires d in t.desc && d !in ds
    ensures d in CloseAll(t, pid, ds).desc && CloseAll(t, pid, ds).desc[d] == t.desc[d]
    ensures CloseAll(t, pid, ds).files.Keys == t.files.Keys
    decreases ds
  {
    if ds != [] {
      NoDupTail(ds);
      assert ds[0] in ds;
      CloseAllSpares(Unlinked(t, pid, ds[0]), pid, ds[1..], d);
    }
  }

  lemma CloseAllSparesAll(t: Table, pid: nat, ds: seq<nat>, kept: seq<nat>)
    requires pid in t.files && NoDup(ds) && forall x <- ds :: x in t.desc && t.desc[x].rid in t.res
    requires forall d <- kept :: d in t.desc && d !in ds
    ensures forall d <- kept :: d in CloseAll(t, pid, ds).desc && CloseAll(t, pid, ds).desc[d] == t.desc[d]
  {
    hide NoDup, CloseAll;
    forall d <- kept ensures d in CloseAll(t, pid, ds).desc && CloseAll(t, pid, ds).desc[d] == t.desc[d] {
      CloseAllSpares(t, pid, ds, d);
    }
  }

  lemma LeakedApart(t: Table, pid: nat, d: nat)
    requires J.TableInv(t) && pid in t.files && d in t.desc && t.desc[d].pid !in t.files
    ensures d !in t.descPool && d !in t.files[pid].descs
  {
    hide J.Names, J.Crossed, J.Queued, J.Books;
    assert J.Sound(pid, t.files[pid], t.desc);
  }

  /** Descriptor `d` is allocated, with the same contents, and not about to be given out. */
  ghost predicate Spared(t: Table, u: Table, d: nat) {
    && d in t.desc && d in u.desc && u.desc[d] == t.desc[d]
    && (d !in t.descPool ==> d !in u.descPool)
  }

  lemma OpenSpares(t: Table, pid: nat, id: int, rtype: int, mode: int, d: nat)
    requires pid in t.files && (forall i <- t.order :: i in t.res) && (t.descPool != [] ==> t.ptrPool != [])
    requires d in t.desc && d !in t.descPool
    ensures Spared(t, OpenExisting(t, pid, id, rtype, mode).table, d)
  {
    if t.descPool != [] {
      assert t.descPool[0] in t.descPool;
    }
  }

  lemma OpenResourceSpares(t: Table, pid: nat, id: int, rtype: int, mode: int, d: nat)
    requires OpenDefined(t, pid, id, rtype, mode) && d in t.desc && d !in t.descPool
    ensures Spared(t, R.OpenResource(t, pid, id, rtype, mode).table, d)
  {
    hide OpenExisting;
    if HasCreate(mode) && id !in t.order {
      var made := AddResource(t, id, Resource(rtype, [], Plain)).(resourceFree := t.resourceFree - 1);
      OpenSpares(made, pid, id, rtype, mode, d);
    } else {
      OpenSpares(t, pid, id, rtype, mode, d);
    }
  }

  lemma MqOpenSpares(t: Table, pid: nat, id: int, rtype: int, mode: int, d: nat)
    requires MqOpenDefined(t, pid, id, rtype, mode) && d in t.desc && d !in t.descPool
    ensures Spared(t, R.MqOpen(t, pid, id, rtype, mode).table, d)
  {
    hide OpenExisting, R.OpenResource;
    var u := t;
    if rtype != DSOS_MQ {
      u := R.OpenResource(t, pid, id, rtype, mode).table;
      OpenResourceShape(t, pid, id, rtype, mode);
      OpenResourceSpares(t, pid, id, rtype, mode, d);
    }
    OpenSpares(if mode == DSOS_CREATE && id !in u.order then MakeQueue(u, id) else u, pid, id, rtype, mode, d);
  }

  lemma TableCallLeaked(t: Table, u: Table, pid: nat, e: Event, d: nat)
    requires J.TableInv(t) && TableCall(t, u, pid, e) && d in t.desc && t.desc[d].pid !in t.files
    ensures d in u.desc && u.desc[d] == t.desc[d]
  {
    hide J.TableInv, Minus, NoDup, R.OpenResource, R.MqOpen, OpenDefined, MqOpenDefined;
    LeakedApart(t, pid, d);
    if e.OpenResource? {
      OpenResourceSpares(t, pid, e.id, e.rtype, e.mode, d);
    } else if e.MqOpen? {
      MqOpenSpares(t, pid, e.id, e.rtype, e.mode, d);
    } else if e.Exit? {
      CloseAllSpares(t, pid, t.files[pid].descs, d);
    }
  }

  /** No step frees a leaked descriptor, and its owner's pid never comes back. */
  lemma StepLeaked(s: State, e: Event, d: nat)
    requires KernelInv(s) && Enabled(s, e) && Leaked(s, d)
    ensures Leaked(Step(s, e), d) && Step(s, e).rs.desc[d] == s.rs.desc[d]
  {
    hide KernelInv, TableCall, SendCall, ReceiveCall, J.TableInv, I.Inv;
    StepKeepsPidsOut(s, e, s.rs.desc[d].pid) by { LeakedPid(s, d); }
    if !e.Tick? {
      RecordedInv(s, e);
      var r := s.(ps := Recorded(s.ps, e));
      if e.MqSend? {
        SendKeepsDescriptors(r, Target(s.rs, s.ps.running.value, e.fd), e.msg);
      } else if e.MqReceive? {
        ReceiveKeepsDescriptors(r, Target(s.rs, s.ps.running.value, e.fd));
      } else {
        InvHalves(s);
        HandleIsTableCall(r, e);
        TableCallLeaked(s.rs, Handle(r, e).rs, s.ps.running.value, e, d);
      }
    }
  }

  lemma StaysLeaky(s: State, e: Event)
    requires KernelInv(s) && Enabled(s, e) && !NoLeak(s.rs)
    ensures !NoLeak(Step(s, e).rs)
  {
    hide KernelInv, Enabled, Step;
    var d :| d in s.rs.desc && s.rs.desc[d].pid !in s.rs.files;
    StepLeaked(s, e, d);
  }

  /** Along a run a state is free of leaked descriptors if and only if no wait before it reaped a holder. */
  lemma {:induction false} RunNoLeak(run: seq<State>, es: seq<Event>, k: nat)
    requires IsRun(run, es) && KernelInv(run[0]) && NoLeak(run[0].rs) && k <= |es|
    ensures NoLeak(run[k].rs) <==> forall i :: 0 <= i < k ==> !LeaksAt(run[i], es[i])
  {
    hide KernelInv, NoLeak, Step, LeaksAt, Enabled;
    if k > 0 {
      RunNoLeak(run, es, k - 1);
      RunKeepsInv(run, es, k - 1);
      RunStep(run, es, k - 1);
      if NoLeak(run[k - 1].rs) {
        StepNoLeak(run[k - 1], es[k - 1]);
      } else {
        StaysLeaky(run[k - 1], es[k - 1]);
      }
    }
  }

  lemma LeakedPid(s: State, d: nat)
    requires KernelInv(s) && Leaked(s, d)
    ensures s.rs.desc[d].pid < s.ps.lastPid
  {
  }

  lemma HandlePids(s: State, e: Event)
    requires KernelInv(s) && !e.Tick? && CallDefined(s.ps, s.rs, e)
    ensures Handle(s, e).ps.lastPid >= s.ps.lastPid
    ensures forall p <- Handle(s, e).rs.files :: p in s.rs.files || (p == s.ps.lastPid && p < Handle(s, e).ps.lastPid)
  {
    hide KernelInv, TableCall, J.TableInv, I.Inv, P.Buried, P.Allocated;
    hide R.OpenResource, R.MqOpen, OpenDefined, MqOpenDefined, P.Exit, P.Wait, P.BlockOnQueue;
    if e.OpenResource? {
      OpenResourceOwners(s.rs, s.ps.running.value, e.id, e.rtype, e.mode);
    } else if e.MqOpen? {
      MqOpenOwners(s.rs, s.ps.running.value, e.id, e.rtype, e.mode);
    } else if e.Exit? {
      InvHalves(s);
      J.CloseAllKeeps(s.rs, s.ps.running.value, s.rs.files[s.ps.running.value].descs);
    }
    HandleLastPid(s, e);
  }

  lemma HandleLastPid(s: State, e: Event)
    requires !e.Tick? && CallDefined(s.ps, s.rs, e)
    ensures Handle(s, e).ps.lastPid == s.ps.lastPid + if e.Spawn? || e.Fork? then 1 else 0
  {
    hide P.Buried, P.Schedule;
    if e.Preempt? {
      ScheduleShape(s.ps);
    }
  }

  lemma StepKeepsPidsOut(s: State, e: Event, p: nat)
    requires KernelInv(s) && Enabled(s, e) && p < s.ps.lastPid && p !in s.rs.files
    ensures p !in Step(s, e).rs.files && p < Step(s, e).ps.lastPid
  {
    hide KernelInv, Handle, P.Schedule;
    if e.Tick? {
      ScheduleShape(s.ps.(time := s.ps.time + 1));
    } else {
      RecordedInv(s, e);
      HandlePids(s.(ps := Recorded(s.ps, e)), e);
    }
  }

  /** A resource with a leaked descriptor is never destroyed again: every attempt finds it in use. */
  lemma {:induction false} LeakIsForever(run: seq<State>, es: seq<Event>, d: nat, k: nat)
    requires IsRun(run, es) && KernelInv(run[0]) && Leaked(run[0], d) && k <= |es|
    ensures Leaked(run[k], d) && run[k].rs.desc[d] == run[0].rs.desc[d]
    ensures var id := run[0].rs.desc[d].rid;
      && id in run[k].rs.order && id in run[k].rs.res
      && (WellLinked(run[k].rs) && Destroy(run[k].rs, id) == Outcome(run[k].rs, DSOS_ERESOURCEINUSE))
      && (UnlinkDefined(run[k].rs, id) ==> Resources.MqUnlink(run[k].rs, id) == Outcome(run[k].rs, DSOS_ERESOURCEINUSE))
  {
    hide KernelInv, Step, Enabled;
    if k > 0 {
      LeakIsForever(run, es, d, k - 1);
      RunKeepsInv(run, es, k - 1);
      RunStep(run, es, k - 1);
      StepLeaked(run[k - 1], es[k - 1], d);
    }
    RunKeepsInv(run, es, k);
    LeakBlocks(run[k], d);
  }

  lemma LeakBlocks(s: State, d: nat)
    requires KernelInv(s) && Leaked(s, d)
    ensures var id := s.rs.desc[d].rid;
      && id in s.rs.order && id in s.rs.res
      && (WellLinked(s.rs) && Destroy(s.rs, id) == Outcome(s.rs, DSOS_ERESOURCEINUSE))
      && (UnlinkDefined(s.rs, id) ==> Resources.MqUnlink(s.rs, id) == Outcome(s.rs, DSOS_ERESOURCEINUSE))
  {
    InvHalves(s);
    J.InvLinked(s.rs);
    hide KernelInv, J.Owned, J.Pooled, J.Queued, J.Books;
    assert J.Entered(d, s.rs.desc, s.rs.dptr, s.rs.res);
    EntriesMeanDescriptors(s.rs, s.rs.desc[d].rid);
  }

  // ---------- spent fds ----------

  /** Process `p` once had `fd` and closed it. */
  ghost predicate SpentBy(t: Table, p: nat, fd: int)
    requires p in t.files
  {
    fd < t.files[p].lastFd && forall d <- t.files[p].descs :: d in t.desc && t.desc[d].fd != fd
  }

  /** As above, or the process is gone. */
  ghost predicate Spent(s: State, p: nat, fd: int) {
    p < s.ps.lastPid && (p in s.rs.files ==> SpentBy(s.rs, p, fd))
  }

  lemma OwnersApart(t: Table, p: nat, q: nat)
    requires J.TableInv(t) && p in t.files && q in t.files && p != q
    ensures forall d <- t.files[p].descs :: d in t.desc && d !in t.files[q].descs
    ensures forall d <- t.files[q].descs :: d in t.desc && d !in t.files[p].descs
  {
    hide J.Names, J.Crossed, J.Pooled, J.Queued, J.Books;
    assert J.Sound(p, t.files[p], t.desc) && J.Sound(q, t.files[q], t.desc);
  }

  lemma CloseAllSpent(t: Table, pid: nat, p: nat, fd: int)
    requires J.TableInv(t) && WellLinked(t) && pid in t.files && NoDup(t.files[pid].descs)
    requires p in t.files && p != pid && SpentBy(t, p, fd)
    ensures var u := CloseAll(t, pid, t.files[pid].descs); p in u.files && SpentBy(u, p, fd)
  {
    var u := CloseAll(t, pid, t.files[pid].descs);
    hide J.TableInv, CloseAll, NoDup;
    OwnersApart(t, pid, p);
    J.CloseAllKeeps(t, pid, t.files[pid].descs);
    CloseAllSparesAll(t, pid, t.files[pid].descs, t.files[p].descs);
  }

  lemma LinkSpent(t: Table, pid: nat, id: int, p: nat, fd: int)
    requires J.TableInv(t) && pid in t.files && id in t.res && t.descPool != [] && t.ptrPool != []
    requires p in t.files && SpentBy(t, p, fd)
    ensures SpentBy(Link(t, pid, id), p, fd)
  {
    hide J.TableInv;
    NextBlocksUnused(t, pid, id);
  }

  lemma OpenSpent(t: Table, pid: nat, id: int, rtype: int, mode: int, p: nat, fd: int)
    requires J.TableInv(t) && pid in t.files && (forall i <- t.order :: i in t.res)
      && (t.descPool != [] ==> t.ptrPool != [])
    requires p in t.files && SpentBy(t, p, fd)
    ensures p in OpenExisting(t, pid, id, rtype, mode).table.files
    ensures SpentBy(OpenExisting(t, pid, id, rtype, mode).table, p, fd)
  {
    hide J.TableInv, SpentBy;
    if id in t.order && t.descPool != [] {
      LinkSpent(t, pid, id, p, fd);
    }
  }

  lemma OpenResourceSpent(t: Table, pid: nat, id: int, rtype: int, mode: int, p: nat, fd: int)
    requires J.TableInv(t) && OpenDefined(t, pid, id, rtype, mode)
    requires p in t.files && SpentBy(t, p, fd)
    ensures var u := R.OpenResource(t, pid, id, rtype, mode).table; p in u.files && SpentBy(u, p, fd)
  {
    hide J.TableInv, OpenExisting;
    if HasCreate(mode) && id !in t.order {
      J.MakePlainKeeps(t, id, rtype);
      OpenSpent(AddResource(t, id, Resource(rtype, [], Plain)).(resourceFree := t.resourceFree - 1),
                pid, id, rtype, mode, p, fd);
    } else {
      OpenSpent(t, pid, id, rtype, mode, p, fd);
    }
  }

  lemma MqOpenFoundSpent(t: Table, pid: nat, id: int, rtype: int, mode: int, p: nat, fd: int)
    requires J.TableInv(t) && pid in t.files && (forall i <- t.order :: i in t.res)
    requires t.descPool != [] ==> t.ptrPool != []
    requires mode == DSOS_CREATE && id !in t.order ==> t.resourceFree > 0 && t.queuePool != []
    requires p in t.files && SpentBy(t, p, fd)
    ensures var u := MqOpenFound(t, pid, id, rtype, mode).table; p in u.files && SpentBy(u, p, fd)
  {
    hide J.TableInv, OpenExisting;
    if mode == DSOS_CREATE && id !in t.order {
      J.MakeQueueKeeps(t, id);
      OpenSpent(MakeQueue(t, id), pid, id, rtype, mode, p, fd);
    } else {
      OpenSpent(t, pid, id, rtype, mode, p, fd);
    }
  }

  lemma MqOpenSpent(t: Table, pid: nat, id: int, rtype: int, mode: int, p: nat, fd: int)
    requires J.TableInv(t) && MqOpenDefined(t, pid, id, rtype, mode)
    requires p in t.files && SpentBy(t, p, fd)
    ensures var u := R.MqOpen(t, pid, id, rtype, mode).table; p in u.files && SpentBy(u, p, fd)
  {
    hide J.TableInv, R.OpenResource, MqOpenFound, SpentBy;
    if rtype != DSOS_MQ {
      var u := R.OpenResource(t, pid, id, rtype, mode).table;
      OpenResourceShape(t, pid, id, rtype, mode);
      OpenResourceSpent(t, pid, id, rtype, mode, p, fd);
      J.OpenResourceKeeps(t, pid, id, rtype, mode);
      MqOpenFoundSpent(u, pid, id, rtype, mode, p, fd);
    } else {
      MqOpenFoundSpent(t, pid, id, rtype, mode, p, fd);
    }
  }

  lemma CloseSpent(t: Table, pid: nat, d: nat, p: nat, fd: int)
    requires J.TableInv(t) && WellLinked(t) && pid in t.files && d in t.files[pid].descs
    requires p in t.files && SpentBy(t, p, fd)
    ensures SpentBy(Unlinked(t, pid, d), p, fd)
  {
    hide J.Names, J.Crossed, J.Pooled, J.Queued, J.Books;
    assert J.Sound(p, t.files[p], t.desc) && J.Sound(pid, t.files[pid], t.desc);
  }

  lemma TableCallSpent(t: Table, u: Table, pid: nat, e: Event, p: nat, fd: int)
    requires J.TableInv(t) && TableCall(t, u, pid, e) && p in t.files && SpentBy(t, p, fd)
    requires !e.Spawn? && !e.Fork?
    ensures p in u.files ==> SpentBy(u, p, fd)
  {
    hide J.TableInv, CloseAll, R.OpenResource, R.MqOpen, OpenDefined, MqOpenDefined, NoDup;
    if e.OpenResource? {
      OpenResourceSpent(t, pid, e.id, e.rtype, e.mode, p, fd);
    } else if e.MqOpen? {
      MqOpenSpent(t, pid, e.id, e.rtype, e.mode, p, fd);
    } else if e.CloseResource? || e.MqClose? {
      var d := ByFd(t.desc, t.files[pid].descs, e.fd);
      if d.Some? {
        CloseSpent(t, pid, d.value, p, fd);
      }
    } else if e.Exit? && p != pid {
      CloseAllSpent(t, pid, p, fd);
    }
  }

  lemma HandleSpent(s: State, e: Event, p: nat, fd: int)
    requires KernelInv(s) && !e.Tick? && CallDefined(s.ps, s.rs, e)
    requires p < s.ps.lastPid && p in s.rs.files && SpentBy(s.rs, p, fd)
    ensures p in Handle(s, e).rs.files ==> SpentBy(Handle(s, e).rs, p, fd)
  {
    hide KernelInv, J.TableInv, TableCall, SendCall, ReceiveCall, P.Allocated;
    if e.MqSend? {
      SendKeepsDescriptors(s, Target(s.rs, s.ps.running.value, e.fd), e.msg);
    } else if e.MqReceive? {
      ReceiveKeepsDescriptors(s, Target(s.rs, s.ps.running.value, e.fd));
    } else if !e.Spawn? && !e.Fork? {
      InvHalves(s);
      HandleIsTableCall(s, e);
      TableCallSpent(s.rs, Handle(s, e).rs, s.ps.running.value, e, p, fd);
    }
  }

  lemma StepSpent(s: State, e: Event, p: nat, fd: int)
    requires KernelInv(s) && Enabled(s, e) && Spent(s, p, fd)
    ensures Spent(Step(s, e), p, fd)
  {
    hide KernelInv, Handle, SpentBy, P.Schedule;
    if p !in s.rs.files {
      StepKeepsPidsOut(s, e, p);
    } else if e.Tick? {
      ScheduleShape(s.ps.(time := s.ps.time + 1));
    } else {
      RecordedInv(s, e);
      HandleSpent(s.(ps := Recorded(s.ps, e)), e, p, fd);
      HandlePids(s.(ps := Recorded(s.ps, e)), e);
    }
  }

  /** A closed fd is never given out again to the same process, in any run. */
  lemma {:induction false} ClosedFdStaysClosed(run: seq<State>, es: seq<Event>, p: nat, fd: int, k: nat)
    requires IsRun(run, es) && KernelInv(run[0]) && Spent(run[0], p, fd) && k <= |es|
    ensures Spent(run[k], p, fd)
  {
    hide KernelInv, Step, Enabled, Spent;
    if k > 0 {
      ClosedFdStaysClosed(run, es, p, fd, k - 1);
      RunKeepsInv(run, es, k - 1);
      RunStep(run, es, k - 1);
      StepSpent(run[k - 1], es[k - 1], p, fd);
    }
  }

  /** Closing an open fd succeeds and spends it. */
  lemma CloseSpends(t: Table, pid: nat, fd: int)
    requires J.TableInv(t) && WellLinked(t) && pid in t.files
    ensures (Close(t, pid, fd).code == 0 <==> exists d <- t.files[pid].descs :: t.desc[d].fd == fd)
    ensures Close(t, pid, fd).code != 0 ==> Close(t, pid, fd) == Outcome(t, DSOS_ERESOURCECLOSE)
    ensures Close(t, pid, fd).code == 0 ==> SpentBy(Close(t, pid, fd).table, pid, fd)
  {
    hide J.Names, J.Crossed, J.Pooled, J.Queued, J.Books, ByFd;
    assert J.Sound(pid, t.files[pid], t.desc);
  }
}
