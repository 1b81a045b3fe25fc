/** The kernel as it runs: both halves on the heap, one method per trap. Each method carries out exactly the
    step of the state machine in `KernelSteps`, so every theorem about runs is one about this program. */
module KernelMachines {
  import opened Constants
  import opened Sequences
  import opened ProcessStores
  import opened ProcessKernels
  import opened BlockPools
  import opened ResourceKernels
  import opened KernelSteps
  import opened KernelInvariant
  import P = Processes
  import R = Resources
  import I = ProcessInvariant
  import J = ResourceInvariant
  import FK = FamilyKeeps

  class KernelMachine {
    const procs: ProcessKernel
    const resources: ResourceKernel

    ghost function Footprint(): set<object>
      reads resources, procs, procs.store
    {
      {resources} + resources.Repr + procs.Footprint()
    }

    /** What the two halves are made of is theirs alone. */
    ghost predicate Separate()
      reads resources, procs, procs.store
    {
      {resources} + resources.Repr !! procs.Footprint()
    }

    ghost predicate Sound()
      reads resources, resources.Repr, procs, procs.store, procs.store.Repr
    {
      procs.Sound() && resources.Valid() && Separate()
    }

    ghost function Now(): State
      reads resources, resources.Repr, procs, procs.store, procs.store.Repr
      requires Sound()
    {
      State(procs.View(), resources.View())
    }

    ghost predicate Valid()
      reads resources, resources.Repr, procs, procs.store, procs.store.Repr
    {
      Sound() && KernelInv(Now())
    }

    /** disastrOS_start. */
    constructor (processLayout: ProcessLayout, layout: Layout)
      requires processLayout.Sound() && layout.Sound()
      ensures Valid() && Now() == Booted() && fresh(Footprint())
    {
      hide ProcessKernel.Sound, ProcessKernel.View, ResourceKernel.Valid, ResourceKernel.View;
      hide KernelInv;
      procs := new ProcessKernel(processLayout);
      resources := new ResourceKernel(layout);
      new;
      BootedInv();
    }

    /** timerInterrupt. */
    method TimerInterrupt()
      requires Valid() && Enabled(Now(), Tick)
      modifies Footprint()
      ensures Valid() && Now() == old(Step(Now(), Tick))
    {
      hide ProcessKernel.Sound, ProcessKernel.View, ResourceKernel.Valid, ResourceKernel.View;
      hide KernelInv, I.Inv, P.Schedule;
      StepKeepsInv(Now(), Tick);
      InvHalves(Now());
      procs.Tick();
    }

    /** disastrOS_syscall: number and arguments go to the caller's PCB, then the handler runs. */
    method Syscall(e: Event)
      requires Valid() && !e.Tick? && Enabled(Now(), e)
      modifies Footprint()
      ensures Valid() && Now() == old(Step(Now(), e)) && fresh(Footprint() - old(Footprint()))
    {
      hide ProcessKernel.Sound, ProcessKernel.View, ResourceKernel.Valid, ResourceKernel.View;
      hide KernelInv, I.Inv, P.RecordCall, CallDefined;
      StepKeepsInv(Now(), e);
      RecordedInv(Now(), e);
      procs.RecordCall(Number(e), Arguments(e));
      Dispatch(e);
    }

    /** The syscall vector. */
    method Dispatch(e: Event)
      requires Valid() && !e.Tick? && CallDefined(Now().ps, Now().rs, e)
      modifies Footprint()
      ensures Sound() && Now() == old(Handle(Now(), e)) && fresh(Footprint() - old(Footprint()))
    {
      hide ProcessKernel.Sound, ProcessKernel.View, ResourceKernel.Valid, ResourceKernel.View;
      hide KernelInv, I.Inv, WaitCall, ExitCall, SpawnCall, SendCall, ReceiveCall;
      match e
      case Preempt => InternalPreempt();
      case Sleep(_) => InternalSleep();
      case Wait(_, _) => InternalWait();
      case Exit(_) => InternalExit();
      case Spawn(_, _) => InternalSpawn();
      case Fork => InternalSpawn();
      case MqSend(fd, msg) => InternalMqSend(fd, msg);
      case MqReceive(fd, _) => InternalMqReceive(fd);
      case OpenResource(_, _, _) => ResourceCall(e);
      case CloseResource(_) => ResourceCall(e);
      case DestroyResource(_) => ResourceCall(e);
      case MqOpen(_, _, _) => ResourceCall(e);
      case MqClose(_) => ResourceCall(e);
      case MqUnlink(_) => ResourceCall(e);
      case Unimplemented(_) => procs.Return(DSOS_ESYSCALL_NOT_IMPLEMENTED);
    }

    method InternalPreempt()
      requires Valid() && P.CanRun(Now().ps)
      modifies Footprint()
      ensures Sound() && fresh(Footprint() - old(Footprint()))
      ensures Now() == old(State(P.Schedule(Now().ps), Now().rs))
    {
      hide ProcessKernel.Sound, ProcessKernel.View, ResourceKernel.Valid, ResourceKernel.View;
      hide KernelInv, I.Inv, P.Schedule;
      InvHalves(Now());
      procs.Schedule();
    }

    method InternalSleep()
      requires Valid() && P.CanRun(Now().ps)
      modifies Footprint()
      ensures Sound() && fresh(Footprint() - old(Footprint()))
      ensures Now() == old(State(P.Sleep(Now().ps), Now().rs))
    {
      hide ProcessKernel.Sound, ProcessKernel.View, ResourceKernel.Valid, ResourceKernel.View;
      hide KernelInv, I.Inv, P.Sleep;
      InvHalves(Now());
      RunnerUnlisted(Now().ps);
      procs.Sleep();
    }

    /** A reaped child's PCB is freed, whatever the child still has open. */
    method InternalWait()
      requires Valid() && P.WaitDefined(Now().ps)
      modifies Footprint()
      ensures Sound() && Now() == old(WaitCall(Now())) && fresh(Footprint() - old(Footprint()))
    {
      hide ProcessKernel.Sound, ProcessKernel.View, ResourceKernel.Valid, ResourceKernel.View;
      hide KernelInv, I.Inv, P.Wait, P.WaitDefined;
      hide WaitCall, Reaped;
      InvHalves(Now());
      WaitCallIs(Now());
      var reaped := procs.Wait();
      if reaped.Some? {
        resources.FreeProcess(reaped.value);
      }
    }

    /** A parent that was waiting takes over the CPU, and only then are the caller's descriptors closed and its
        PCB freed. */
    method InternalExit()
      requires Valid() && ExitCallDefined(Now())
      modifies Footprint()
      ensures Sound() && Now() == old(ExitCall(Now())) && fresh(Footprint() - old(Footprint()))
    {
      hide ProcessKernel.Sound, ProcessKernel.View, ResourceKernel.Valid, ResourceKernel.View;
      hide KernelInv, I.Inv, J.TableInv, P.Exit, P.ExitDefined, P.Allocated;
      hide NoDup, R.WellLinked, ExitCall, FK.HandsOver;
      InvHalves(Now());
      ExitCallIs(Now());
      var me := procs.Caller();
      var handedOver := procs.Exit();
      if handedOver {
        resources.CloseAll(me);
        resources.FreeProcess(me);
      }
    }

    method InternalSpawn()
      requires Valid() && P.SpawnDefined(Now().ps)
      modifies Footprint()
      ensures Sound() && Now() == old(SpawnCall(Now())) && fresh(Footprint() - old(Footprint()))
    {
      hide ProcessKernel.Sound, ProcessKernel.View, ResourceKernel.Valid, ResourceKernel.View;
      hide KernelInv, I.Inv, P.Spawn;
      InvHalves(Now());
      SpawnParts(Now().ps);
      var child := procs.NextPid();
      procs.Spawn();
      resources.NewProcess(child);
    }

    /** The calls that change only the resource half and return a value. */
    method ResourceCall(e: Event)
      requires Valid() && !e.Tick? && OnlyTable(e) && CallDefined(Now().ps, Now().rs, e)
      modifies Footprint()
      ensures Sound() && Now() == old(Handle(Now(), e)) && fresh(Footprint() - old(Footprint()))
    {
      hide ProcessKernel.Sound, ProcessKernel.View, ResourceKernel.Valid, ResourceKernel.View;
      hide KernelInv, I.Inv, J.TableInv;
      hide CallDefined, Handle, OutcomeDefined, OutcomeOf;
      InvHalves(Now());
      HandleIsOutcome(Now(), e);
      var me := procs.Caller();
      var code := resources.Handle(me, e);
      procs.Return(code);
    }

    method InternalMqSend(fd: int, msg: int)
      requires Valid() && SendCallDefined(Now(), fd)
      modifies Footprint()
      ensures Sound() && fresh(Footprint() - old(Footprint()))
      ensures Now() == old(SendCall(Now(), R.Target(Now().rs, Now().ps.running.value, fd), msg))
    {
      hide ProcessKernel.Sound, ProcessKernel.View, ResourceKernel.Valid, ResourceKernel.View;
      hide KernelInv, I.Inv;
      hide P.Allocated, P.BlockOnQueue, R.Enqueue, R.Target, R.WellLinked, R.IsQueue, SendCall, SendDefined, Unlisted;
      SendCases(Now(), fd, msg);
      var me := procs.Caller();
      var id := resources.Target(me, fd);
      if id.None? {
        procs.Return(DSOS_ERESOURCESEND);
        return;
      }
      var full := resources.IsFull(id.value);
      if full {
        procs.BlockOnQueue(DSOS_MQ_FULL);
      } else {
        Post(id.value, msg);
      }
    }

    /** The non-blocking ends of send and receive. */
    method Post(id: int, msg: int)
      requires Sound() && P.CanRun(Now().ps) && R.IsQueue(Now().rs, id) && Now().rs.messageFree > 0
      modifies Footprint()
      ensures Sound() && fresh(Footprint() - old(Footprint()))
      ensures Now() == old(State(P.Return(Now().ps, 0), R.Enqueue(Now().rs, id, msg)))
    {
      hide ProcessKernel.Sound, ProcessKernel.View, ResourceKernel.Valid, ResourceKernel.View;
      hide P.Allocated, R.Enqueue, R.IsQueue;
      resources.Enqueue(id, msg);
      procs.Return(0);
    }

    method Fetch(id: int)
      requires Sound() && P.CanRun(Now().ps) && R.IsQueue(Now().rs, id)
      requires R.Count(Now().rs, id) > 0 && R.Messages(Now().rs, id) != []
      modifies Footprint()
      ensures Sound() && fresh(Footprint() - old(Footprint()))
      ensures P.CanRun(Handed(old(Now().ps), old(R.Messages(Now().rs, id)[0])))
      ensures Now()
        == State(P.Return(Handed(old(Now().ps), old(R.Messages(Now().rs, id)[0])), 0), old(R.Dequeue(Now().rs, id)))
    {
      hide ProcessKernel.Sound, ProcessKernel.View, ResourceKernel.Valid, ResourceKernel.View;
      hide P.Allocated, R.Dequeue, R.IsQueue;
      var msg := resources.Dequeue(id);
      procs.TakeMessage(msg);
      procs.Return(0);
    }

    method InternalMqReceive(fd: int)
      requires Valid() && ReceiveCallDefined(Now(), fd)
      modifies Footprint()
      ensures Sound() && fresh(Footprint() - old(Footprint()))
      ensures Now() == old(ReceiveCall(Now(), R.Target(Now().rs, Now().ps.running.value, fd)))
    {
      hide ProcessKernel.Sound, ProcessKernel.View, ResourceKernel.Valid, ResourceKernel.View;
      hide KernelInv, I.Inv;
      hide P.Allocated, P.BlockOnQueue, R.Dequeue, R.Target, R.WellLinked, R.IsQueue;
      hide ReceiveCall, ReceiveDefined, Unlisted, Handed;
      ReceiveCases(Now(), fd);
      var me := procs.Caller();
      var id := resources.Target(me, fd);
      if id.None? {
        procs.Return(DSOS_ERESOURCERECV);
        return;
      }
      var empty := resources.IsEmpty(id.value);
      if empty {
        procs.BlockOnQueue(DSOS_MQ_EMPTY);
      } else {
        Fetch(id.value);
      }
    }
  }

  ghost predicate ExitCallDefined(s: State) {
    && P.ExitDefined(s.ps) && P.CanRun(s.ps) && R.WellLinked(s.rs) && s.ps.running.value in s.rs.files
    && NoDup(s.rs.files[s.ps.running.value].descs)
  }

  ghost predicate SendCallDefined(s: State, fd: int) {
    && P.CanRun(s.ps) && R.WellLinked(s.rs) && s.ps.running.value in s.rs.files
    && SendDefined(s.ps, s.rs, R.Target(s.rs, s.ps.running.value, fd))
  }

  ghost predicate ReceiveCallDefined(s: State, fd: int) {
    && P.CanRun(s.ps) && R.WellLinked(s.rs) && s.ps.running.value in s.rs.files
    && ReceiveDefined(s.ps, s.rs, R.Target(s.rs, s.ps.running.value, fd))
  }

  lemma WaitCallIs(s: State)
    requires P.WaitDefined(s.ps)
    ensures WaitCall(s) ==
      State(P.Wait(s.ps), if Reaped(s.ps).Some? then R.FreeProcess(s.rs, Reaped(s.ps).value) else s.rs)
  {
    hide P.Wait;
  }

  lemma ExitCallIs(s: State)
    requires I.Inv(s.ps) && ExitCallDefined(s)
    ensures var me := s.ps.running.value;
      ExitCall(s) == State(P.Exit(s.ps),
        if FK.HandsOver(s.ps) then R.FreeProcess(R.CloseAll(s.rs, me, s.rs.files[me].descs), me) else s.rs)
  {
    hide I.Inv, P.Exit, P.Buried, FK.HandsOver, NoDup, R.CloseAll;
    ExitParts(s.ps);
  }

  lemma SendCases(s: State, fd: int, msg: int)
    requires KernelInv(s) && SendCallDefined(s, fd)
    ensures Unlisted(s.ps, s.ps.running.value)
    ensures var target := R.Target(s.rs, s.ps.running.value, fd);
      if target.None? then SendCall(s, target, msg) == State(P.Return(s.ps, DSOS_ERESOURCESEND), s.rs)
      else
        && R.IsQueue(s.rs, target.value)
        && if R.Full(s.rs, target.value) then
             && (!P.TimerRefused(s.ps) ==> s.ps.ready != [])
             && SendCall(s, target, msg) == State(P.BlockOnQueue(s.ps, DSOS_MQ_FULL), s.rs)
           else
             && s.rs.messageFree > 0
             && SendCall(s, target, msg) == State(P.Return(s.ps, 0), R.Enqueue(s.rs, target.value, msg))
  {
    hide KernelInv, I.Inv, R.WellLinked, R.Target;
    InvHalves(s);
    RunnerUnlisted(s.ps);
  }

  lemma ReceiveCases(s: State, fd: int)
    requires KernelInv(s) && ReceiveCallDefined(s, fd)
    ensures Unlisted(s.ps, s.ps.running.value)
    ensures var target := R.Target(s.rs, s.ps.running.value, fd);
      if target.None? then ReceiveCall(s, target) == State(P.Return(s.ps, DSOS_ERESOURCERECV), s.rs)
      else
        && R.IsQueue(s.rs, target.value)
        && if R.Empty(s.rs, target.value) then
             && (!P.TimerRefused(s.ps) ==> s.ps.ready != [])
             && ReceiveCall(s, target) == State(P.BlockOnQueue(s.ps, DSOS_MQ_EMPTY), s.rs)
           else
             && R.Messages(s.rs, target.value) != [] && R.Count(s.rs, target.value) > 0
             && P.CanRun(Handed(s.ps, R.Messages(s.rs, target.value)[0]))
             && ReceiveCall(s, target)
                == State(P.Return(Handed(s.ps, R.Messages(s.rs, target.value)[0]), 0), R.Dequeue(s.rs, target.value))
  {
    hide KernelInv, I.Inv, R.WellLinked, R.Target;
    InvHalves(s);
    RunnerUnlisted(s.ps);
  }

  lemma SpawnParts(s: P.Procs)
    requires I.Inv(s)
    ensures FK.Fresh(s) && Unlisted(s, s.lastPid)
  {
    hide I.Clocked, I.Accounts;
    FK.NextPidFresh(s);
  }
}
