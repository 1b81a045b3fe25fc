/** The kernel's invariant holds after boot and is kept by every step, hence in every state of every run. */
module KernelInvariant {
  import opened Constants
  import opened Sequences
  import opened KernelSteps
  import P = Processes
  import R = Resources
  import I = ProcessInvariant
  import J = ResourceInvariant
  import SK = ScheduleKeeps
  import BK = BlockKeeps
  import FK = FamilyKeeps

  ghost predicate KernelInv(s: State) {
    && I.Inv(s.ps) && J.TableInv(s.rs)
    && s.rs.files.Keys == s.ps.pcb.Keys
    && forall d <- s.rs.desc :: s.rs.desc[d].pid < s.ps.lastPid
  }

  lemma BootedInv()
    ensures KernelInv(Booted())
  {
    hide I.Inv, J.TableInv;
    BootedProcsInv();
    BootedTableInv();
  }

  lemma BootedProcsInv()
    ensures I.Inv(BootedProcs())
  {
    hide I.Clocked, I.Family, I.Named;
    var s := BootedProcs();
    assert I.Housed(s, 0);
    assert s.pcb.Keys == {0};
    assert I.Clocked(s) && I.Family(s) && I.Named(s) by { BootedParts(); }
  }

  lemma BootedParts()
    ensures I.Clocked(BootedProcs()) && I.Family(BootedProcs()) && I.Named(BootedProcs())
  {
  }

  lemma BootedTableInv()
    ensures J.TableInv(BootedTable())
  {
    UptoFacts(MAX_NUM_PROCESSES);
    UptoFacts(MAX_NUM_RESOURCES);
    var t := BootedTable();
    assert J.Sound(0, t.files[0], t.desc);
  }

  lemma PidsBelow(s: P.Procs)
    requires I.Inv(s)
    ensures forall p <- s.pcb :: p < s.lastPid
  {
    I.PidsIssued(s);
  }

  /** An event that leaves PCBs allocated as they were. */
  lemma SameKeys(s: State, t: State)
    requires KernelInv(s) && I.Inv(t.ps) && J.TableInv(t.rs)
    requires t.ps.pcb.Keys == s.ps.pcb.Keys && t.ps.lastPid == s.ps.lastPid
    requires t.rs.files.Keys == s.rs.files.Keys
    requires forall d <- t.rs.desc :: t.rs.desc[d].pid in s.rs.files || (d in s.rs.desc && t.rs.desc[d] == s.rs.desc[d])
    ensures KernelInv(t)
  {
    hide I.Inv, J.TableInv;
    PidsBelow(s.ps);
  }

  lemma RecordedInv(s: State, e: Event)
    requires KernelInv(s) && P.CanRun(s.ps) && !e.Tick?
    ensures KernelInv(s.(ps := Recorded(s.ps, e)))
    ensures P.CanRun(Recorded(s.ps, e)) && Recorded(s.ps, e) == s.ps.(pcb := Recorded(s.ps, e).pcb)
    ensures Recorded(s.ps, e).pcb[s.ps.running.value].syscallNum == Number(e)
  {
    hide I.Inv, J.TableInv;
    BK.RecordCallKeepsInv(s.ps, Number(e), Arguments(e));
    I.InvAllocated(Recorded(s.ps, e));
  }

  lemma FilesSound(t: R.Table)
    requires J.TableInv(t)
    ensures R.WellLinked(t) && forall p <- t.files :: NoDup(t.files[p].descs)
  {
    J.InvLinked(t);
    forall p <- t.files ensures NoDup(t.files[p].descs) {
      assert J.Sound(p, t.files[p], t.desc);
    }
  }

  /** Recording a call changes two fields of the caller. */
  lemma Calling(s: State, e: Event)
    requires KernelInv(s) && s.ps.running.Some? && !e.Tick?
    ensures P.CanRun(s.ps) && KernelInv(s.(ps := Recorded(s.ps, e)))
    ensures P.CanRun(Recorded(s.ps, e)) && R.WellLinked(s.rs) && s.ps.running.value in s.rs.files
    ensures NoDup(s.rs.files[s.ps.running.value].descs)
    ensures var m, me := Recorded(s.ps, e).pcb, s.ps.running.value;
      && Recorded(s.ps, e) == s.ps.(pcb := m) && m.Keys == s.ps.pcb.Keys
      && (forall p <- m :: p != me ==> m[p] == s.ps.pcb[p])
      && m[me] == s.ps.pcb[me].(syscallNum := Number(e), args := m[me].args)
      && (Arguments(e) != [] ==> m[me].args[0] == Arguments(e)[0])
  {
    hide I.Inv, R.WellLinked;
    InvHalves(s);
    I.InvAllocated(s.ps);
    RecordedInv(s, e);
    FilesSound(s.rs);
  }

  lemma ScheduleStep(s: State)
    requires KernelInv(s) && P.CanRun(s.ps)
    ensures KernelInv(State(P.Schedule(s.ps), s.rs))
  {
    hide I.Inv, J.TableInv;
    SK.ScheduleKeepsInv(s.ps);
    ScheduleShape(s.ps);
  }

  lemma ScheduleShape(s: P.Procs)
    requires P.ScheduleDefined(s)
    ensures P.Schedule(s).pcb.Keys == s.pcb.Keys && P.Schedule(s).lastPid == s.lastPid
  {
    P.WakeAllocated(s);
  }

  lemma ClockInv(s: P.Procs)
    requires I.Inv(s)
    ensures I.Inv(s.(time := s.time + 1))
  {
    var t := s.(time := s.time + 1);
    forall p <- t.pcb ensures I.Housed(t, p) {
      assert I.Housed(s, p);
    }
    hide I.Family, I.Named, I.Accounts;
    SK.SameTreeBooks(s, t);
  }

  lemma WaitStep(s: State)
    requires KernelInv(s) && P.WaitDefined(s.ps) && s.ps.pcb[s.ps.running.value].syscallNum == DSOS_CALL_WAIT
    ensures KernelInv(WaitCall(s))
  {
    hide I.Inv, J.TableInv;
    FK.WaitKeepsInv(s.ps);
    var me := s.ps.running.value;
    var cs := s.ps.pcb[me].children;
    if cs != [] && s.ps.pcb[cs[P.AwaitedIndex(s.ps)]].status == P.Zombie {
      J.FreeProcessKeeps(s.rs, cs[P.AwaitedIndex(s.ps)]);
      assert cs[P.AwaitedIndex(s.ps)] != me by { ChildDiffers(s.ps, me, P.AwaitedIndex(s.ps)); }
    }
  }

  lemma ChildDiffers(s: P.Procs, p: nat, k: nat)
    requires I.Inv(s) && p in s.pcb && k < |s.pcb[p].children|
    ensures s.pcb[p].children[k] != p
  {
    assert I.ListedBy(s, s.pcb[p].children[k], p);
  }

  /** Which PCBs are left, and that the test for a hand-over is made on signalled PCBs makes no difference. */
  lemma ExitPids(s: P.Procs)
    requires P.ExitDefined(s)
    ensures FK.HandsOver(s) <==> P.Heir(s).Some? && P.WaitsFor(P.Buried(s)[P.Heir(s).value], s.running.value)
    ensures P.Exit(s).pcb.Keys == if FK.HandsOver(s) then s.pcb.Keys - {s.running.value} else s.pcb.Keys
    ensures P.Exit(s).init == s.init && P.Exit(s).lastPid == s.lastPid
  {
    hide P.Buried, P.WaitsFor;
    FK.ExitCases(s);
    if P.Heir(s).Some? {
      FK.BuriedFields(s, P.Heir(s).value);
    }
  }

  lemma ExitStep(s: State)
    requires KernelInv(s) && P.ExitDefined(s.ps) && R.WellLinked(s.rs) && s.ps.running.value in s.rs.files
    requires NoDup(s.rs.files[s.ps.running.value].descs)
    ensures KernelInv(ExitCall(s))
  {
    hide I.Inv, J.TableInv, P.Buried, P.WaitsFor, P.Heir, P.Exit;
    var me := s.ps.running.value;
    FK.ExitKeepsInv(s.ps);
    FK.ExitCases(s.ps);
    ExitPids(s.ps);
    if FK.HandsOver(s.ps) {
      var u := R.CloseAll(s.rs, me, s.rs.files[me].descs);
      J.CloseAllKeeps(s.rs, me, s.rs.files[me].descs);
      J.FreeProcessKeeps(u, me);
      CloseAllShrinks(s.rs, me, s.rs.files[me].descs);
    }
  }

  lemma {:induction false} CloseAllShrinks(t: R.Table, pid: nat, ds: seq<nat>)
    requires pid in t.files && NoDup(ds) && forall d <- ds :: d in t.desc && t.desc[d].rid in t.res
    ensures var u := R.CloseAll(t, pid, ds);
      forall d <- u.desc :: d in t.desc && u.desc[d] == t.desc[d]
    decreases ds
  {
    if ds != [] {
      NoDupTail(ds);
      CloseAllShrinks(R.Unlinked(t, pid, ds[0]), pid, ds[1..]);
    }
  }

  lemma FreshPid(s: P.Procs)
    requires I.Inv(s)
    ensures s.lastPid !in s.pcb
  {
    PidsBelow(s);
  }

  lemma SpawnStep(s: State)
    requires KernelInv(s) && P.SpawnDefined(s.ps)
    ensures KernelInv(SpawnCall(s))
  {
    hide J.TableInv, I.Inv;
    FreshPid(s.ps);
    FK.SpawnKeepsInv(s.ps);
    J.NewProcessKeeps(s.rs, s.ps.lastPid);
  }

  /** `u` has the processes of `t`, and no descriptor of anyone else's. */
  ghost predicate SameOwners(t: R.Table, u: R.Table) {
    && u.files.Keys == t.files.Keys
    && forall d <- u.desc :: u.desc[d].pid in t.files || (d in t.desc && u.desc[d] == t.desc[d])
  }

  lemma ReturningStep(s: State, out: R.Outcome)
    requires KernelInv(s) && P.CanRun(s.ps) && J.TableInv(out.table) && SameOwners(s.rs, out.table)
    ensures KernelInv(Returning(s.ps, out))
  {
    hide J.TableInv, I.Inv;
    BK.ReturnKeepsInv(s.ps, out.code);
    SameKeys(s, Returning(s.ps, out));
  }

  lemma OpenExistingOwners(t: R.Table, pid: nat, id: int, rtype: int, mode: int)
    requires pid in t.files && (forall i <- t.order :: i in t.res) && (t.descPool != [] ==> t.ptrPool != [])
    ensures SameOwners(t, R.OpenExisting(t, pid, id, rtype, mode).table)
  {
  }

  lemma OpenResourceOwners(t: R.Table, pid: nat, id: int, rtype: int, mode: int)
    requires R.OpenDefined(t, pid, id, rtype, mode)
    ensures SameOwners(t, R.OpenResource(t, pid, id, rtype, mode).table)
  {
    hide R.OpenExisting;
    if R.HasCreate(mode) && id !in t.order {
      var made := R.AddResource(t, id, R.Resource(rtype, [], R.Plain)).(resourceFree := t.resourceFree - 1);
      OpenExistingOwners(made, pid, id, rtype, mode);
    } else {
      OpenExistingOwners(t, pid, id, rtype, mode);
    }
  }

  lemma MqOpenOwners(t: R.Table, pid: nat, id: int, rtype: int, mode: int)
    requires R.MqOpenDefined(t, pid, id, rtype, mode)
    ensures SameOwners(t, R.MqOpen(t, pid, id, rtype, mode).table)
  {
    hide R.OpenExisting, R.OpenResource;
    var u := t;
    if rtype != DSOS_MQ {
      u := R.OpenResource(t, pid, id, rtype, mode).table;
      R.OpenResourceShape(t, pid, id, rtype, mode);
      OpenResourceOwners(t, pid, id, rtype, mode);
    }
    if mode == DSOS_CREATE && id !in u.order {
      OpenExistingOwners(R.MakeQueue(u, id), pid, id, rtype, mode);
    } else {
      OpenExistingOwners(u, pid, id, rtype, mode);
    }
  }

  lemma OpenStep(s: State, id: int, rtype: int, mode: int)
    requires KernelInv(s) && P.CanRun(s.ps)
    requires R.OpenDefined(s.rs, s.ps.running.value, id, rtype, mode)
    ensures KernelInv(Returning(s.ps, R.OpenResource(s.rs, s.ps.running.value, id, rtype, mode)))
  {
    hide J.TableInv, I.Inv, KernelInv, R.OpenResource, SameOwners;
    assert J.TableInv(s.rs) by { InvHalves(s); }
    J.OpenResourceKeeps(s.rs, s.ps.running.value, id, rtype, mode);
    OpenResourceOwners(s.rs, s.ps.running.value, id, rtype, mode);
    ReturningStep(s, R.OpenResource(s.rs, s.ps.running.value, id, rtype, mode));
  }

  lemma MqOpenStep(s: State, id: int, rtype: int, mode: int)
    requires KernelInv(s) && P.CanRun(s.ps) && R.MqOpenDefined(s.rs, s.ps.running.value, id, rtype, mode)
    ensures KernelInv(Returning(s.ps, R.MqOpen(s.rs, s.ps.running.value, id, rtype, mode)))
  {
    hide J.TableInv, I.Inv, KernelInv, R.MqOpen, R.MqOpenDefined, SameOwners;
    assert J.TableInv(s.rs) by { InvHalves(s); }
    J.MqOpenKeeps(s.rs, s.ps.running.value, id, rtype, mode);
    MqOpenOwners(s.rs, s.ps.running.value, id, rtype, mode);
    ReturningStep(s, R.MqOpen(s.rs, s.ps.running.value, id, rtype, mode));
  }

  lemma InvHalves(s: State)
    requires KernelInv(s)
    ensures I.Inv(s.ps) && J.TableInv(s.rs)
  {
    hide J.TableInv, I.Inv;
  }

  lemma CloseStep(s: State, fd: int)
    requires KernelInv(s) && P.CanRun(s.ps) && R.WellLinked(s.rs) && s.ps.running.value in s.rs.files
    ensures KernelInv(Returning(s.ps, R.Close(s.rs, s.ps.running.value, fd)))
  {
    hide J.TableInv, I.Inv, KernelInv;
    assert J.TableInv(s.rs) by { InvHalves(s); }
    J.CloseKeeps(s.rs, s.ps.running.value, fd);
    ReturningStep(s, R.Close(s.rs, s.ps.running.value, fd));
  }

  lemma RemovalStep(s: State, e: Event)
    requires KernelInv(s) && (e.DestroyResource? || e.MqUnlink?) && CallDefined(s.ps, s.rs, e)
    ensures KernelInv(Handle(s, e))
  {
    hide J.TableInv, I.Inv, KernelInv;
    assert J.TableInv(s.rs) by { InvHalves(s); }
    if e.DestroyResource? {
      J.DestroyKeeps(s.rs, e.id);
      ReturningStep(s, R.Destroy(s.rs, e.id));
    } else {
      J.MqUnlinkKeeps(s.rs, e.id);
      ReturningStep(s, R.MqUnlink(s.rs, e.id));
    }
  }

  lemma QueueBlockStep(s: State, code: int)
    requires KernelInv(s) && P.CanRun(s.ps) && s.ps.pcb[s.ps.running.value].syscallNum != DSOS_CALL_WAIT
    requires !P.TimerRefused(s.ps) ==> s.ps.ready != []
    ensures KernelInv(State(P.BlockOnQueue(s.ps, code), s.rs))
  {
    hide J.TableInv, I.Inv;
    BK.TimerAvailable(s.ps);
    BK.BlockOnQueueKeepsInv(s.ps, code);
  }

  lemma SendStep(s: State, target: Option<int>, msg: int)
    requires KernelInv(s) && P.CanRun(s.ps) && SendDefined(s.ps, s.rs, target)
    requires s.ps.pcb[s.ps.running.value].syscallNum != DSOS_CALL_WAIT
    ensures KernelInv(SendCall(s, target, msg))
  {
    hide J.TableInv, I.Inv;
    if target.None? {
      BK.ReturnKeepsInv(s.ps, DSOS_ERESOURCESEND);
    } else if R.Full(s.rs, target.value) {
      QueueBlockStep(s, DSOS_MQ_FULL);
    } else {
      BK.ReturnKeepsInv(s.ps, 0);
      J.EnqueueKeeps(s.rs, target.value, msg);
    }
  }

  lemma ReceiveStep(s: State, target: Option<int>)
    requires KernelInv(s) && P.CanRun(s.ps) && ReceiveDefined(s.ps, s.rs, target)
    requires s.ps.pcb[s.ps.running.value].syscallNum != DSOS_CALL_WAIT
    ensures KernelInv(ReceiveCall(s, target))
  {
    hide J.TableInv, I.Inv;
    if target.None? {
      BK.ReturnKeepsInv(s.ps, DSOS_ERESOURCERECV);
    } else if R.Empty(s.rs, target.value) {
      QueueBlockStep(s, DSOS_MQ_EMPTY);
    } else {
      var h := Handed(s.ps, R.Messages(s.rs, target.value)[0]);
      assert I.SameShape(s.ps, h);
      I.SameShapeKeepsInv(s.ps, h);
      BK.ReturnKeepsInv(h, 0);
      J.DequeueKeeps(s.rs, target.value);
    }
  }

  lemma HandleKeepsInv(s: State, e: Event)
    requires KernelInv(s) && !e.Tick? && CallDefined(s.ps, s.rs, e)
    requires s.ps.pcb[s.ps.running.value].syscallNum == Number(e)
    ensures KernelInv(Handle(s, e))
  {
    hide KernelInv;
    var me := s.ps.running.value;
    match e
    case Preempt => ScheduleStep(s);
    case Sleep(_) => SleepStep(s);
    case Wait(_, _) => WaitStep(s);
    case Exit(_) => ExitStep(s);
    case Spawn(_, _) => SpawnStep(s);
    case Fork => SpawnStep(s);
    case MqSend(fd, msg) => SendStep(s, R.Target(s.rs, me, fd), msg);
    case MqReceive(fd, _) => ReceiveStep(s, R.Target(s.rs, me, fd));
    case OpenResource(id, rtype, mode) => OpenStep(s, id, rtype, mode);
    case MqOpen(id, rtype, mode) => MqOpenStep(s, id, rtype, mode);
    case CloseResource(fd) => CloseStep(s, fd);
    case MqClose(fd) => CloseStep(s, fd);
    case DestroyResource(_) => RemovalStep(s, e);
    case MqUnlink(_) => RemovalStep(s, e);
    case Unimplemented(_) => UnimplementedStep(s);
  }

  lemma UnimplementedStep(s: State)
    requires KernelInv(s) && P.CanRun(s.ps)
    ensures KernelInv(State(P.Return(s.ps, DSOS_ESYSCALL_NOT_IMPLEMENTED), s.rs))
  {
    hide J.TableInv, I.Inv;
    BK.ReturnKeepsInv(s.ps, DSOS_ESYSCALL_NOT_IMPLEMENTED);
  }

  lemma SleepStep(s: State)
    requires KernelInv(s) && P.CanRun(s.ps) && s.ps.pcb[s.ps.running.value].syscallNum != DSOS_CALL_WAIT
    ensures KernelInv(State(P.Sleep(s.ps), s.rs))
  {
    hide J.TableInv, I.Inv;
    BK.SleepKeepsInv(s.ps);
  }

  /** Every step keeps the invariant. */
  lemma StepKeepsInv(s: State, e: Event)
    requires KernelInv(s) && Enabled(s, e)
    ensures KernelInv(Step(s, e))
  {
    hide J.TableInv, I.Inv;
    if e.Tick? {
      ClockInv(s.ps);
      ScheduleStep(s.(ps := s.ps.(time := s.ps.time + 1)));
    } else {
      RecordedInv(s, e);
      HandleKeepsInv(s.(ps := Recorded(s.ps, e)), e);
    }
  }

  /** Every state of a run that starts well satisfies the invariant. */
  lemma {:induction false} RunKeepsInv(run: seq<State>, es: seq<Event>, k: nat)
    requires IsRun(run, es) && KernelInv(run[0]) && k <= |es|
    ensures KernelInv(run[k])
  {
    hide KernelInv;
    if k > 0 {
      RunKeepsInv(run, es, k - 1);
      RunStep(run, es, k - 1);
      StepKeepsInv(run[k - 1], es[k - 1]);
    }
  }
}
