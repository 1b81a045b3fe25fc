/** A sleeper leaves the waiting list exactly when its time comes. */
module SleepExactness {
  import opened Constants
  import opened KernelSteps
  import opened KernelInvariant
  import P = Processes
  import I = ProcessInvariant
  import SK = ScheduleKeeps
  import BK = BlockKeeps
  import FK = FamilyKeeps

  /** `p` may run: it has the CPU or is queued for it, and has no timer. */
  ghost predicate Awake(s: P.Procs, p: nat) {
    (s.running == Some(p) || p in s.ready) && p !in P.Pids(s.timers)
  }

  ghost predicate AllFuture(s: P.Procs) {
    forall t <- s.timers :: s.time < t.wake
  }

  lemma TimerIsWaiting(s: P.Procs, p: nat, wake: int)
    requires I.Inv(s) && P.Timer(wake, p) in s.timers
    ensures p in s.waiting
  {
    var i :| 0 <= i < |s.timers| && s.timers[i] == P.Timer(wake, p);
    assert P.Pids(s.timers)[i] == p;
    assert I.Housed(s, p);
  }

  // ---------- one step ----------

  lemma WakeTimers(s: P.Procs, p: nat, wake: int)
    requires I.Placed(s) && I.Clocked(s) && P.Timer(wake, p) in s.timers
    ensures if wake <= s.time then p in P.Wake(s).ready && p !in P.Pids(P.Wake(s).timers)
            else P.Timer(wake, p) in P.Wake(s).timers
  {
    var n, w := P.DueCount(s.timers, s.time), P.Wake(s);
    SK.DueSplit(s.timers, s.time);
    SK.DuePidsFacts(s);
    var i :| 0 <= i < |s.timers| && s.timers[i] == P.Timer(wake, p);
    if i < n {
      assert s.timers[..n][i] == P.Timer(wake, p);
      assert P.DuePids(s)[i] == p;
      assert w.ready[i] == p;
    } else {
      assert w.timers[i - n] == P.Timer(wake, p);
    }
  }

  lemma RotateKeepsReady(s: P.Procs, p: nat)
    requires P.Allocated(s) && (s.ready != [] ==> s.running.Some?) && p in s.ready
    ensures var t := P.Rotate(s); p in t.ready || t.running == Some(p)
  {
    assert s.ready == [s.ready[0]] + s.ready[1..];
  }

  /** The scheduler wakes exactly the due processes, and leaves only timers in the future. */
  lemma ScheduleTimers(s: P.Procs, p: nat, wake: int)
    requires I.Inv(s) && s.running.Some? && P.ScheduleDefined(s) && P.Timer(wake, p) in s.timers
    ensures if wake <= s.time then Awake(P.Schedule(s), p) else P.Timer(wake, p) in P.Schedule(s).timers
  {
    hide I.Placed, I.Clocked, I.Family, I.Named, I.Accounts, P.Wake;
    P.WakeAllocated(s);
    WakeTimers(s, p, wake);
    assert P.Wake(s).running == s.running by { WakeRunning(s); }
    if wake <= s.time {
      RotateKeepsReady(P.Wake(s), p);
    }
  }

  lemma WakeRunning(s: P.Procs)
    ensures P.Wake(s).running == s.running && P.Wake(s).time == s.time
  {
  }

  lemma AfterSchedule(s: P.Procs)
    requires I.Inv(s) && P.ScheduleDefined(s)
    ensures AllFuture(P.Schedule(s))
  {
    hide I.Placed, I.Family, I.Named, I.Accounts;
    P.WakeAllocated(s);
    SK.DueSplit(s.timers, s.time);
  }

  lemma AddTimerKeeps(ts: seq<P.Timer>, wake: int, pid: nat, t: P.Timer)
    requires t in ts
    ensures t in P.AddTimer(ts, wake, pid)
  {
    var k := P.InsertionPoint(ts, wake);
    assert P.AddTimer(ts, wake, pid) == ts[..k] + [P.Timer(wake, pid)] + ts[k..];
    assert ts == ts[..k] + ts[k..];
  }

  lemma BlockTimers(s: P.Procs, wake: int, t: P.Timer)
    requires P.CanRun(s) && s.timerFree > 0 && t in s.timers
    ensures t in P.BlockOnTimer(s, wake).timers && P.BlockOnTimer(s, wake).time == s.time
  {
    AddTimerKeeps(s.timers, wake, s.running.value, t);
  }

  lemma QueueBlockTimers(s: P.Procs, code: int, t: P.Timer)
    requires P.CanRun(s) && (!P.TimerRefused(s) ==> s.ready != []) && t in s.timers
    ensures t in P.BlockOnQueue(s, code).timers && P.BlockOnQueue(s, code).time == s.time
  {
    hide P.BlockOnTimer;
    if !P.TimerRefused(s) {
      BlockTimers(s, s.time + QUEUE_SLEEP, t);
    }
  }

  lemma SleepTimers(s: P.Procs, t: P.Timer)
    requires P.CanRun(s) && t in s.timers
    ensures t in P.Sleep(s).timers && P.Sleep(s).time == s.time
  {
    hide P.BlockOnTimer;
    if !P.TimerRefused(s) {
      BlockTimers(s, s.time + s.pcb[s.running.value].args[0], t);
    }
  }

  lemma ExitTimers(s: P.Procs, t: P.Timer)
    requires I.Inv(s) && P.ExitDefined(s) && t in s.timers
    ensures t in P.Exit(s).timers && P.Exit(s).time == s.time
  {
    hide I.Inv, P.Buried;
    FK.ExitCases(s);
    RunningHasNoTimer(s);
  }

  lemma HandleTimers(s: State, e: Event, t: P.Timer)
    requires KernelInv(s) && !e.Tick? && !e.Preempt? && CallDefined(s.ps, s.rs, e) && t in s.ps.timers
    ensures t in Handle(s, e).ps.timers && Handle(s, e).ps.time == s.ps.time
  {
    hide P.Heir, P.Referent, P.WaitsFor, P.AwaitedIndex, P.Allocated, R.WellLinked;
    hide KernelInv, I.Inv, P.Buried, P.Sleep, P.BlockOnQueue, P.Exit;
    match e
    case Sleep(_) => SleepTimers(s.ps, t);
    case Exit(_) =>
      InvHalves(s);
      ExitTimers(s.ps, t);
    case MqSend(_, _) =>
      if s.ps.ready != [] || P.TimerRefused(s.ps) {
        QueueBlockTimers(s.ps, DSOS_MQ_FULL, t);
      }
    case MqReceive(_, _) =>
      if s.ps.ready != [] || P.TimerRefused(s.ps) {
        QueueBlockTimers(s.ps, DSOS_MQ_EMPTY, t);
      }
    case _ =>
  }

  lemma RunningHasNoTimer(s: P.Procs)
    requires I.Inv(s) && P.CanRun(s)
    ensures P.TimersWithout(s.timers, s.running.value) == s.timers
  {
    hide I.Placed, I.Clocked, I.Family, I.Accounts, I.Named;
    FK.ExitTimersUntouched(s);
  }

  lemma TickTimers(s: P.Procs, p: nat, wake: int)
    requires I.Inv(s) && s.running.Some? && P.Timer(wake, p) in s.timers
    requires P.TickDefined(s)
    ensures if wake <= s.time + 1 then Awake(P.Tick(s), p) else P.Timer(wake, p) in P.Tick(s).timers
  {
    hide I.Inv, P.Schedule, P.ScheduleDefined, Awake;
    ClockInv(s);
    ScheduleTimers(s.(time := s.time + 1), p, wake);
  }

  /** Only a scheduler run removes a timer, and only when its time has come. */
  lemma StepTimers(s: State, e: Event, p: nat, wake: int)
    requires KernelInv(s) && Enabled(s, e) && P.Timer(wake, p) in s.ps.timers
    ensures var t := Step(s, e).ps;
      if (e.Tick? || e.Preempt?) && wake <= s.ps.time + (if e.Tick? then 1 else 0) then Awake(t, p)
      else P.Timer(wake, p) in t.timers
  {
    hide KernelInv, P.Schedule, I.Inv, Awake;
    InvHalves(s);
    if e.Tick? {
      TickTimers(s.ps, p, wake);
    } else {
      RecordedInv(s, e);
      var r := s.(ps := Recorded(s.ps, e));
      InvHalves(r);
      if e.Preempt? {
        ScheduleTimers(r.ps, p, wake);
      } else {
        hide Handle;
        HandleTimers(r, e, P.Timer(wake, p));
      }
    }
  }

  lemma ScheduleTime(s: P.Procs)
    requires P.ScheduleDefined(s)
    ensures P.Schedule(s).time == s.time
  {
    P.WakeAllocated(s);
  }

  // ---------- whole runs ----------

  lemma StepTime(s: State, e: Event)
    requires Enabled(s, e)
    ensures Step(s, e).ps.time == s.ps.time + if e.Tick? then 1 else 0
  {
    if e.Tick? {
      ScheduleTime(s.ps.(time := s.ps.time + 1));
    } else if e.Preempt? {
      ScheduleTime(Recorded(s.ps, e));
    } else {
      HandleTime(s.(ps := Recorded(s.ps, e)), e);
    }
  }

  lemma HandleTime(s: State, e: Event)
    requires !e.Tick? && !e.Preempt? && CallDefined(s.ps, s.rs, e)
    ensures Handle(s, e).ps.time == s.ps.time
  {
    hide P.Heir, P.Referent, P.WaitsFor, P.TimersWithout, P.AwaitedIndex, P.AddTimer, P.Allocated, R.WellLinked;
    hide P.Buried, P.Schedule;
  }

  /** While the clock is short of its time a sleeper stays put; the tick that reaches it wakes it. */
  lemma {:induction false} SleepsUntil(run: seq<State>, es: seq<Event>, p: nat, wake: int, k: nat)
    requires IsRun(run, es) && KernelInv(run[0]) && k <= |es|
    requires P.Timer(wake, p) in run[0].ps.timers && run[0].ps.time < wake
    ensures run[k].ps.time < wake ==> P.Timer(wake, p) in run[k].ps.timers && p in run[k].ps.waiting
    ensures k > 0 && run[k].ps.time >= wake && run[k - 1].ps.time < wake ==>
      es[k - 1].Tick? && run[k].ps.time == wake && Awake(run[k].ps, p)
  {
    hide KernelInv, Step, Awake, Enabled;
    assert P.Timer(wake, p) in run[0].ps.timers;
    if k > 0 {
      RunStep(run, es, k - 1);
      StepTime(run[k - 1], es[k - 1]);
      SleepsUntil(run, es, p, wake, k - 1);
      RunKeepsInv(run, es, k - 1);
      if run[k - 1].ps.time < wake {
        StepTimers(run[k - 1], es[k - 1], p, wake);
      }
    }
    RunKeepsInv(run, es, k);
    if run[k].ps.time < wake {
      InvHalves(run[k]);
      TimerIsWaiting(run[k].ps, p, wake);
    }
  }

  lemma SleepArms(s: State, cycles: int)
    requires KernelInv(s) && Enabled(s, Sleep(cycles))
    ensures P.Timer(s.ps.time + cycles, s.ps.running.value) in Step(s, Sleep(cycles)).ps.timers
  {
    hide KernelInv, I.Inv;
    RecordedInv(s, Sleep(cycles));
    var r := Recorded(s.ps, Sleep(cycles));
    InvHalves(s.(ps := r));
    BK.TimerAvailable(r);
    var k := P.InsertionPoint(r.timers, s.ps.time + cycles);
    assert P.AddTimer(r.timers, s.ps.time + cycles, s.ps.running.value)[k].wake == s.ps.time + cycles;
  }

  lemma EnabledRuns(s: State, e: Event)
    requires Enabled(s, e)
    ensures s.ps.running.Some?
  {
  }

  /** sleep(c), c >= 1, called at time t0: the caller waits until the tick that makes the time t0 + c, and is
      ready or running right after it. */
  lemma SleepIsExact(run: seq<State>, es: seq<Event>, cycles: int, k: nat)
    requires IsRun(run, es) && KernelInv(run[0]) && es != [] && es[0] == Sleep(cycles) && cycles >= 1
    requires 1 <= k <= |es|
    ensures run[0].ps.running.Some?
    ensures var t0, me := run[0].ps.time, run[0].ps.running.value;
      && (run[k].ps.time < t0 + cycles ==> me in run[k].ps.waiting)
      && (run[k].ps.time >= t0 + cycles && run[k - 1].ps.time < t0 + cycles ==>
            es[k - 1].Tick? && run[k].ps.time == t0 + cycles && Awake(run[k].ps, me))
  {
    hide KernelInv, Step, Awake, Enabled;
    RunTail(run, es);
    EnabledRuns(run[0], es[0]);
    SleepArms(run[0], cycles);
    StepTime(run[0], es[0]);
    StepKeepsInv(run[0], es[0]);
    SleepsUntil(run[1..], es[1..], run[0].ps.running.value, run[0].ps.time + cycles, k - 1);
    assert k > 1 ==> es[1..][k - 2] == es[k - 1];
  }
}
