/** One process that never gives up the CPU keeps the kernel alive: there is always a process to switch to. */
module NoIdle {
  import opened Constants
  import opened Sequences
  import opened KernelSteps
  import opened KernelInvariant
  import P = Processes
  import R = Resources
  import I = ProcessInvariant
  import BK = BlockKeeps
  import BW = BoundedWaiting
  import W = Wakeups

  ghost predicate OnOrReady(s: P.Procs, b: nat) {
    s.running == Some(b) || b in s.ready
  }

  /** The running process leaves the CPU for something other than the scheduler: it sleeps, exits, blocks in
      wait, sends to a full queue or receives from an empty one. */
  ghost predicate GivesUp(s: State, e: Event)
    requires !e.Tick? && CallDefined(s.ps, s.rs, e)
  {
    var me := s.ps.running.value;
    match e
    case Sleep(_) => true
    case Exit(_) => true
    case Wait(_, _) =>
      var cs := s.ps.pcb[me].children;
      cs != [] && s.ps.pcb[cs[P.AwaitedIndex(s.ps)]].status != P.Zombie
    case MqSend(fd, _) =>
      var id := R.Target(s.rs, me, fd);
      id.Some? && s.rs.numMsg[s.rs.res[id.value].kind.block] == MQ_MAX_MSG_SIZE
    case MqReceive(fd, _) =>
      var id := R.Target(s.rs, me, fd);
      id.Some? && s.rs.numMsg[s.rs.res[id.value].kind.block] == 0
    case _ => false
  }

  ghost predicate GivesUpAt(s: State, e: Event) {
    Enabled(s, e) && !e.Tick? && GivesUp(s.(ps := Recorded(s.ps, e)), e)
  }

  lemma ScheduleKeepsRunning(s: P.Procs, b: nat)
    requires P.ScheduleDefined(s) && s.running == Some(b)
    ensures OnOrReady(P.Schedule(s), b)
  {
    P.WakeAllocated(s);
    var w := P.Wake(s);
    if w.ready != [] {
      assert P.Schedule(s).ready[|w.ready| - 1] == b;
    }
  }

  lemma HandleKeepsRunning(s: State, e: Event, b: nat)
    requires !e.Tick? && CallDefined(s.ps, s.rs, e) && s.ps.running == Some(b) && !GivesUp(s, e)
    ensures OnOrReady(Handle(s, e).ps, b)
  {
    hide P.Allocated, P.Schedule, P.BlockOnQueue;
    if e.Preempt? {
      ScheduleKeepsRunning(s.ps, b);
    }
  }

  lemma ScheduleRuns(s: P.Procs)
    requires P.ScheduleDefined(s) && s.running.Some?
    ensures P.Schedule(s).running.Some?
  {
    P.WakeAllocated(s);
  }

  lemma CallIdles(s: State, e: Event)
    requires I.Inv(s.ps) && !e.Tick? && CallDefined(s.ps, s.rs, e)
    ensures Handle(s, e).ps.running.None? <==> e.Sleep? && s.ps.ready == []
  {
    hide I.Inv, P.Schedule, P.Buried, P.Allocated, R.WellLinked, R.Target, NoDup;
    BK.TimerAvailable(s.ps);
    if e.Preempt? {
      ScheduleRuns(s.ps);
    }
  }

  lemma TickRuns(s: P.Procs)
    requires P.CanRun(s)
    ensures P.TickDefined(s) && P.Tick(s).running.Some?
  {
    hide P.Schedule;
    ScheduleRuns(s.(time := s.time + 1));
  }

  /** The CPU goes idle exactly when the running process sleeps and nobody is ready. */
  lemma StepIdles(s: State, e: Event)
    requires KernelInv(s) && Enabled(s, e)
    ensures Step(s, e).ps.running.None? <==> e.Sleep? && s.ps.ready == []
  {
    hide KernelInv, I.Inv, P.Tick, Handle, CallDefined;
    if e.Tick? {
      TickRuns(s.ps);
    } else {
      RecordedInv(s, e);
      var r := s.(ps := Recorded(s.ps, e));
      InvHalves(r);
      CallIdles(r, e);
    }
  }

  /** A run can only end idle, and ends idle exactly when its last event is a sleep with nobody ready. */
  lemma RunIdles(run: seq<State>, es: seq<Event>, k: nat)
    requires IsRun(run, es) && KernelInv(run[0]) && run[0].ps.running.Some? && k <= |es|
    ensures run[k].ps.running.None? <==> k == |es| > 0 && es[k - 1].Sleep? && run[k - 1].ps.ready == []
  {
    hide KernelInv, Step;
    if k > 0 {
      RunKeepsInv(run, es, k - 1);
      RunStep(run, es, k - 1);
      StepIdles(run[k - 1], es[k - 1]);
      if k < |es| {
        RunStep(run, es, k);
      }
    }
  }

  lemma SleepGivesUp(s: State, e: Event)
    requires Enabled(s, e) && e.Sleep?
    ensures GivesUpAt(s, e)
  {
  }

  lemma StepKeepsBusy(s: State, e: Event, b: nat)
    requires KernelInv(s) && Enabled(s, e) && OnOrReady(s.ps, b)
    requires s.ps.running == Some(b) ==> !GivesUpAt(s, e)
    ensures OnOrReady(Step(s, e).ps, b)
  {
    hide KernelInv, Handle, GivesUp;
    if s.ps.running != Some(b) {
      BW.StepAdvances(s, e, b);
    } else if e.Tick? {
      ScheduleKeepsRunning(s.ps.(time := s.ps.time + 1), b);
    } else {
      HandleKeepsRunning(s.(ps := Recorded(s.ps, e)), e, b);
    }
  }

  /** If `b` never gives up the CPU, some process runs in every state, and whenever it is not `b` another
      process is ready: no blocking call of the others finds the ready list empty. */
  lemma {:induction false} NeverIdle(run: seq<State>, es: seq<Event>, b: nat, k: nat)
    requires IsRun(run, es) && KernelInv(run[0]) && k <= |es|
    requires OnOrReady(run[0].ps, b) && run[0].ps.running.Some?
    requires forall i :: 0 <= i < |es| && run[i].ps.running == Some(b) ==> !GivesUpAt(run[i], es[i])
    ensures OnOrReady(run[k].ps, b)
    ensures run[k].ps.running.Some?
    ensures run[k].ps.running != Some(b) ==> run[k].ps.ready != []
  {
    hide KernelInv, Step, GivesUpAt, Enabled;
    if k > 0 {
      NeverIdle(run, es, b, k - 1);
      RunKeepsInv(run, es, k - 1);
      RunStep(run, es, k - 1);
      StepKeepsBusy(run[k - 1], es[k - 1], b);
      StepIdles(run[k - 1], es[k - 1]);
      if es[k - 1].Sleep? {
        SleepGivesUp(run[k - 1], es[k - 1]);
      }
    }
  }

  /** The parent pointer of `c` leads to a process that is not its parent and takes `c` for a child it waits for. */
  ghost predicate MistakenFor(s: P.Procs, c: nat)
    requires c in s.pcb
  {
    && s.pcb[c].parent.Some? && s.pcb[c].parent.value !in s.pcb
    && var q := P.Referent(s, s.pcb[c].parent.value);
       q.Some? && c !in s.pcb[q.value].children && W.InWaitFor(s.pcb[q.value], c)
  }

  /** With another process ready, every wait is defined, and so is every exit but that of init and that of an orphan
      whose parent's block now holds the PCB of another process that waits for any child or for that pid. */
  lemma OthersCanBlock(s: P.Procs)
    requires I.Inv(s) && P.CanRun(s) && s.ready != []
    ensures P.WaitDefined(s)
    ensures var me := s.running.value;
      P.ExitDefined(s) <==> me != s.init && !MistakenFor(s, me)
  {
    hide I.Clocked, I.Accounts;
    var me := s.running.value;
    if me != s.init {
      assert I.HasLister(s, me);
      assert forall c <- s.pcb[me].children :: I.ListedBy(s, c, me);
      I.Leads(s, me);
      I.Leads(s, s.pcb[me].parent.value);
    }
  }
}
