/** Over whole runs: wakeups are kept exactly by heard exits, and every exit value stays or is delivered once. */
module WakeupRuns {
  import opened Constants
  import opened KernelSteps
  import opened KernelInvariant
  import P = Processes
  import R = Resources
  import I = ProcessInvariant
  import BK = BlockKeeps
  import W = Wakeups

  lemma RunningIsAwake(s: P.Procs)
    requires I.Inv(s) && P.CanRun(s)
    ensures s.pcb[s.running.value].status in {P.Running, P.Ready}
  {
  }

  lemma BlockedNoLost(s: P.Procs, code: int)
    requires I.Inv(s) && W.NoLost(s) && P.CanRun(s) && s.ready != []
    requires s.pcb[s.running.value].syscallNum != DSOS_CALL_WAIT
    ensures W.NoLost(P.BlockOnQueue(s, code))
  {
    hide I.Inv, W.NoLost;
    BK.BlockOnQueueKeepsInv(s, code);
    W.BlockNoLost(s, s.time + QUEUE_SLEEP);
    BK.BlockOnTimerKeepsInv(s, s.time + QUEUE_SLEEP);
    I.InvAllocated(P.BlockOnTimer(s, s.time + QUEUE_SLEEP));
    ReturnNoLost(P.BlockOnTimer(s, s.time + QUEUE_SLEEP), code);
  }

  lemma ReturnNoLost(s: P.Procs, code: int)
    requires I.Inv(s) && W.NoLost(s) && P.CanRun(s)
    ensures W.NoLost(P.Return(s, code))
  {
    hide I.Inv, W.NoLost;
    RunningIsAwake(s);
    W.RegistersNoLost(s, P.Return(s, code));
  }

  lemma SleepNoLost(s: P.Procs)
    requires I.Inv(s) && W.NoLost(s) && P.CanRun(s) && s.pcb[s.running.value].syscallNum != DSOS_CALL_WAIT
    ensures W.NoLost(P.Sleep(s))
  {
    hide I.Inv, W.NoLost;
    BK.SleepKeepsInv(s);
    W.BlockNoLost(s, s.time + s.pcb[s.running.value].args[0]);
  }

  lemma TableNoLost(s: State, e: Event)
    requires KernelInv(s) && W.NoLost(s.ps) && !e.Tick? && CallDefined(s.ps, s.rs, e)
    requires
      || e.OpenResource? || e.CloseResource? || e.DestroyResource? || e.MqOpen? || e.MqClose? || e.MqUnlink?
      || e.Unimplemented?
    ensures W.NoLost(Handle(s, e).ps)
  {
    hide KernelInv, I.Inv, W.NoLost, P.Allocated, R.WellLinked, P.Return, R.OpenResource, R.MqOpen, R.MqOpenDefined;
    InvHalves(s);
    match e
    case OpenResource(id, rtype, mode) =>
      ReturnNoLost(s.ps, R.OpenResource(s.rs, s.ps.running.value, id, rtype, mode).code);
    case CloseResource(fd) => ReturnNoLost(s.ps, R.Close(s.rs, s.ps.running.value, fd).code);
    case DestroyResource(id) => ReturnNoLost(s.ps, R.Destroy(s.rs, id).code);
    case MqOpen(id, rtype, mode) => ReturnNoLost(s.ps, R.MqOpen(s.rs, s.ps.running.value, id, rtype, mode).code);
    case MqClose(fd) => ReturnNoLost(s.ps, R.Close(s.rs, s.ps.running.value, fd).code);
    case MqUnlink(id) => ReturnNoLost(s.ps, R.MqUnlink(s.rs, id).code);
    case Unimplemented(_) => ReturnNoLost(s.ps, DSOS_ESYSCALL_NOT_IMPLEMENTED);
  }

  lemma HandleNoLost(s: State, e: Event)
    requires KernelInv(s) && W.NoLost(s.ps) && !e.Tick? && CallDefined(s.ps, s.rs, e)
    requires s.ps.pcb[s.ps.running.value].syscallNum == Number(e)
    ensures e.Exit? ==> (W.NoLost(Handle(s, e).ps) <==> W.Heard(s.ps))
    ensures !e.Exit? ==> W.NoLost(Handle(s, e).ps)
  {
    hide KernelInv, I.Inv, W.NoLost, P.Buried, W.Heard;
    hide P.Sleep, P.Wait, P.Exit, P.Schedule, P.Spawn, P.Return, P.BlockOnQueue, Handed;
    InvHalves(s);
    match e
    case Preempt => W.ScheduleNoLost(s.ps);
    case Sleep(_) => SleepNoLost(s.ps);
    case Wait(_, _) => W.WaitNoLost(s.ps);
    case Exit(_) => W.ExitNoLost(s.ps);
    case Spawn(_, _) => PlacedSpawnNoLost(s.ps);
    case Fork => PlacedSpawnNoLost(s.ps);
    case MqSend(fd, msg) => SendNoLost(s, R.Target(s.rs, s.ps.running.value, fd), msg);
    case MqReceive(fd, _) => ReceiveNoLost(s, R.Target(s.rs, s.ps.running.value, fd));
    case _ => TableNoLost(s, e);
  }

  lemma PlacedSpawnNoLost(s: P.Procs)
    requires I.Inv(s) && W.NoLost(s) && P.SpawnDefined(s)
    ensures W.NoLost(P.Spawn(s))
  {
    hide W.NoLost, P.Spawn;
    W.SpawnNoLost(s);
  }

  lemma SendNoLost(s: State, target: Option<int>, msg: int)
    requires KernelInv(s) && W.NoLost(s.ps) && P.CanRun(s.ps) && SendDefined(s.ps, s.rs, target)
    requires s.ps.pcb[s.ps.running.value].syscallNum != DSOS_CALL_WAIT
    ensures W.NoLost(SendCall(s, target, msg).ps)
  {
    hide I.Inv, W.NoLost;
    BK.TimerAvailable(s.ps);
    if target.None? {
      ReturnNoLost(s.ps, DSOS_ERESOURCESEND);
    } else if R.Full(s.rs, target.value) {
      BlockedNoLost(s.ps, DSOS_MQ_FULL);
    } else {
      ReturnNoLost(s.ps, 0);
    }
  }

  lemma HandedNoLost(s: P.Procs, msg: int)
    requires I.Inv(s) && W.NoLost(s) && P.CanRun(s)
    ensures W.NoLost(P.Return(Handed(s, msg), 0))
  {
    hide I.Inv, W.NoLost;
    RunningIsAwake(s);
    W.RegistersNoLost(s, P.Return(Handed(s, msg), 0));
  }

  lemma ReceiveNoLost(s: State, target: Option<int>)
    requires KernelInv(s) && W.NoLost(s.ps) && P.CanRun(s.ps) && ReceiveDefined(s.ps, s.rs, target)
    requires s.ps.pcb[s.ps.running.value].syscallNum != DSOS_CALL_WAIT
    ensures W.NoLost(ReceiveCall(s, target).ps)
  {
    hide I.Inv, W.NoLost;
    BK.TimerAvailable(s.ps);
    if target.None? {
      ReturnNoLost(s.ps, DSOS_ERESOURCERECV);
    } else if R.Empty(s.rs, target.value) {
      BlockedNoLost(s.ps, DSOS_MQ_EMPTY);
    } else {
      HandedNoLost(s.ps, R.Messages(s.rs, target.value)[0]);
    }
  }

  lemma TickNoLost(s: P.Procs)
    requires I.Inv(s) && W.NoLost(s) && s.running.Some? && P.TickDefined(s)
    ensures W.NoLost(P.Tick(s))
  {
    hide I.Inv, W.NoLost, P.Schedule, P.ScheduleDefined;
    ClockInv(s);
    ClockNoLost(s);
    W.ScheduleNoLost(s.(time := s.time + 1));
  }

  lemma RecordedNoLost(s: P.Procs, e: Event)
    requires I.Inv(s) && W.NoLost(s) && P.CanRun(s) && !e.Tick?
    ensures W.NoLost(Recorded(s, e))
  {
    hide I.Inv, W.NoLost;
    RunningIsAwake(s);
    W.RegistersNoLost(s, Recorded(s, e));
  }

  /** Nobody who waits is passed over by `e`: it is not an exit, or an exit whose parent hears of it. */
  ghost predicate HeardAt(s: State, e: Event) {
    Enabled(s, e) && (e.Exit? ==> W.Heard(Recorded(s.ps, e)))
  }

  /** Among all the steps of the kernel only an exit that is not heard loses a wakeup, and every such exit does. */
  lemma StepNoLost(s: State, e: Event)
    requires KernelInv(s) && Enabled(s, e) && W.NoLost(s.ps)
    ensures W.NoLost(Step(s, e).ps) <==> HeardAt(s, e)
  {
    hide KernelInv, I.Inv, W.NoLost, W.Heard, Handle, P.Tick, Recorded;
    InvHalves(s);
    if e.Tick? {
      TickNoLost(s.ps);
    } else {
      RecordedInv(s, e);
      RecordedNoLost(s.ps, e);
      HandleNoLost(s.(ps := Recorded(s.ps, e)), e);
    }
  }

  lemma ClockNoLost(s: P.Procs)
    requires W.NoLost(s)
    ensures W.NoLost(s.(time := s.time + 1))
  {
    W.NoNewWaitKeeps(s, s.(time := s.time + 1));
  }

  /** No wakeup is lost in a run all of whose exits are heard. */
  lemma {:induction false} NoLostWakeup(run: seq<State>, es: seq<Event>, k: nat)
    requires IsRun(run, es) && KernelInv(run[0]) && W.NoLost(run[0].ps) && k <= |es|
    requires forall i :: 0 <= i < |es| ==> HeardAt(run[i], es[i])
    ensures W.NoLost(run[k].ps)
  {
    hide KernelInv, W.NoLost, W.Heard, Step;
    if k > 0 {
      NoLostWakeup(run, es, k - 1);
      RunKeepsInv(run, es, k - 1);
      RunStep(run, es, k - 1);
      StepNoLost(run[k - 1], es[k - 1]);
    }
  }

  /** A whole run is free of lost wakeups exactly when each of its exits is heard. */
  lemma LostOnlyByExit(run: seq<State>, es: seq<Event>)
    requires IsRun(run, es) && KernelInv(run[0]) && W.NoLost(run[0].ps)
    ensures (forall k :: 0 <= k <= |es| ==> W.NoLost(run[k].ps)) <==>
      (forall i :: 0 <= i < |es| ==> HeardAt(run[i], es[i]))
  {
    hide KernelInv, W.NoLost, HeardAt, Step, Enabled;
    if forall i :: 0 <= i < |es| ==> HeardAt(run[i], es[i]) {
      forall k | 0 <= k <= |es| ensures W.NoLost(run[k].ps) {
        NoLostWakeup(run, es, k);
      }
    }
    if forall k :: 0 <= k <= |es| ==> W.NoLost(run[k].ps) {
      forall i | 0 <= i < |es| ensures HeardAt(run[i], es[i]) {
        RunKeepsInv(run, es, i);
        RunStep(run, es, i);
        StepNoLost(run[i], es[i]);
        assert W.NoLost(run[i + 1].ps);
      }
    }
  }
}
