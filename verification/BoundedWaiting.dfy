/** Bounded waiting: no ready process is passed over for ever, whatever the other processes do. */
module BoundedWaiting {
  import opened Constants
  import opened Sequences
  import opened KernelSteps
  import opened KernelInvariant
  import P = Processes
  import I = ProcessInvariant
  import SK = ScheduleKeeps
  import FK = FamilyKeeps

  /** Processes ahead of `p` in the ready list, plus pending timers, each of which may yet jump ahead. */
  function Pressure(s: P.Procs, p: nat): nat {
    IndexOf(s.ready, p) + |s.timers|
  }

  /** `p` got the CPU, or is still ready with its pressure down by at least `gain`. */
  ghost predicate Advances(s: P.Procs, t: P.Procs, p: nat, gain: nat) {
    t.running == Some(p) || (p in t.ready && Pressure(t, p) + gain <= Pressure(s, p))
  }

  lemma {:induction false} IndexAfterPrefix(a: seq<nat>, b: seq<nat>, p: nat)
    requires p !in a && p in b
    ensures IndexOf(a + b, p) == |a| + IndexOf(b, p)
  {
    if a == [] {
      assert a + b == b;
    } else {
      assert (a + b)[1..] == a[1..] + b;
      IndexAfterPrefix(a[1..], b, p);
    }
  }

  lemma {:induction false} IndexBeforeSuffix(a: seq<nat>, b: seq<nat>, p: nat)
    requires p in a
    ensures IndexOf(a + b, p) == IndexOf(a, p)
  {
    if a[0] != p {
      assert (a + b)[1..] == a[1..] + b;
      IndexBeforeSuffix(a[1..], b, p);
    }
  }

  // ---------- one step ----------

  /** Each scheduler run brings a ready process strictly closer, even though woken processes go first. */
  lemma ScheduleAdvances(s: P.Procs, p: nat)
    requires I.Inv(s) && P.ScheduleDefined(s) && s.running.Some? && p in s.ready
    ensures Advances(s, P.Schedule(s), p, 1)
  {
    hide I.Clocked, I.Family, I.Accounts, I.Named;
    var w, d := P.Wake(s), P.DuePids(s);
    P.WakeAllocated(s);
    assert p !in d by { SK.DuePidsFacts(s); }
    IndexAfterPrefix(d, s.ready, p);
    if w.ready[0] != p {
      assert w.ready == [w.ready[0]] + w.ready[1..];
      IndexBeforeSuffix(w.ready[1..], [s.running.value], p);
    }
  }

  lemma PickNextAdvances(s: P.Procs, t: P.Procs, p: nat)
    requires p in s.ready && t.ready == s.ready[1..] && t.running == Some(s.ready[0])
    requires |t.timers| <= |s.timers| + 1
    ensures Advances(s, t, p, 0)
  {
    if s.ready[0] != p {
      assert s.ready == [s.ready[0]] + s.ready[1..];
    }
  }

  lemma WaitAdvances(s: P.Procs, p: nat)
    requires P.WaitDefined(s) && p in s.ready
    ensures Advances(s, P.Wait(s), p, 0)
  {
    var cs := s.pcb[s.running.value].children;
    if cs != [] && s.pcb[cs[P.AwaitedIndex(s)]].status != P.Zombie {
      PickNextAdvances(s, P.Wait(s), p);
    }
  }

  lemma ExitAdvances(s: P.Procs, p: nat)
    requires P.ExitDefined(s) && p in s.ready
    ensures Advances(s, P.Exit(s), p, 0)
  {
    hide P.Buried;
    FK.ExitCases(s);
    if FK.HandsOver(s) {
      ShorterTimers(s.timers, s.running.value);
    } else {
      PickNextAdvances(s, P.Exit(s), p);
    }
  }

  lemma ShorterTimers(ts: seq<P.Timer>, pid: nat)
    ensures |P.TimersWithout(ts, pid)| <= |ts|
  {
  }

  lemma SpawnAdvances(s: P.Procs, p: nat)
    requires P.SpawnDefined(s) && p in s.ready
    ensures Advances(s, P.Spawn(s), p, 0)
  {
    IndexBeforeSuffix(s.ready, [s.lastPid], p);
  }

  lemma BlockAdvances(s: P.Procs, t: P.Procs, wake: int, p: nat)
    requires P.CanRun(s) && s.timerFree > 0 && p in s.ready
    requires t == P.BlockOnTimer(s, wake).(pcb := t.pcb)
    ensures Advances(s, t, p, 0)
  {
    PickNextAdvances(s, t, p);
  }

  lemma QueueBlockAdvances(s: P.Procs, code: int, p: nat)
    requires P.CanRun(s) && p in s.ready
    ensures Advances(s, P.BlockOnQueue(s, code), p, 0)
  {
    if !P.TimerRefused(s) {
      BlockAdvances(s, P.BlockOnQueue(s, code), s.time + QUEUE_SLEEP, p);
    }
  }

  predicate Schedules(e: Event) {
    e.Tick? || e.Preempt?
  }

  lemma HandleAdvances(s: State, e: Event, p: nat)
    requires KernelInv(s) && !e.Tick? && CallDefined(s.ps, s.rs, e) && p in s.ps.ready
    ensures Advances(s.ps, Handle(s, e).ps, p, if e.Preempt? then 1 else 0)
  {
    hide KernelInv, I.Inv, Advances, P.Schedule, P.Allocated;
    assert I.Inv(s.ps) by { InvHalves(s); }
    if e.Preempt? {
      ScheduleAdvances(s.ps, p);
    } else if e.Sleep? || e.Wait? || e.Exit? || e.Spawn? || e.Fork? {
      ProcessCallAdvances(s, e, p);
    } else {
      OtherAdvances(s, e, p);
    }
  }

  lemma ProcessCallAdvances(s: State, e: Event, p: nat)
    requires (e.Sleep? || e.Wait? || e.Exit? || e.Spawn? || e.Fork?) && CallDefined(s.ps, s.rs, e) && p in s.ps.ready
    requires I.Inv(s.ps)
    ensures Advances(s.ps, Handle(s, e).ps, p, 0)
  {
    hide I.Inv, Advances, P.Sleep, P.Wait, P.Exit, P.Spawn, P.Buried, P.WaitsFor, P.Allocated;
    match e
    case Sleep(_) => SleepAdvances(s.ps, p);
    case Wait(_, _) => WaitAdvances(s.ps, p);
    case Exit(_) => ExitAdvances(s.ps, p);
    case Spawn(_, _) => SpawnAdvances(s.ps, p);
    case Fork => SpawnAdvances(s.ps, p);
  }

  lemma SleepAdvances(s: P.Procs, p: nat)
    requires P.CanRun(s) && p in s.ready
    ensures Advances(s, P.Sleep(s), p, 0)
  {
    if !P.TimerRefused(s) {
      BlockAdvances(s, P.Sleep(s), s.time + s.pcb[s.running.value].args[0], p);
    }
  }

  lemma OtherAdvances(s: State, e: Event, p: nat)
    requires !e.Tick? && CallDefined(s.ps, s.rs, e) && p in s.ps.ready
    requires !(e.Preempt? || e.Sleep? || e.Wait? || e.Exit? || e.Spawn? || e.Fork?)
    ensures Advances(s.ps, Handle(s, e).ps, p, 0)
  {
    if e.MqSend? {
      QueueBlockAdvances(s.ps, DSOS_MQ_FULL, p);
    } else if e.MqReceive? {
      QueueBlockAdvances(s.ps, DSOS_MQ_EMPTY, p);
    }
  }

  lemma TickAdvances(s: P.Procs, p: nat)
    requires I.Inv(s) && s.running.Some? && p in s.ready
    requires P.TickDefined(s)
    ensures Advances(s, P.Tick(s), p, 1)
  {
    hide I.Inv, P.Schedule, P.ScheduleDefined, Advances;
    var u := s.(time := s.time + 1);
    ClockInv(s);
    ScheduleAdvances(u, p);
    ClockIrrelevant(s, u, P.Schedule(u), p, 1);
  }

  lemma ClockIrrelevant(s: P.Procs, u: P.Procs, t: P.Procs, p: nat, gain: nat)
    requires u == s.(time := u.time) && Advances(u, t, p, gain)
    ensures Advances(s, t, p, gain)
  {
  }

  lemma StepAdvances(s: State, e: Event, p: nat)
    requires KernelInv(s) && Enabled(s, e) && p in s.ps.ready
    ensures Advances(s.ps, Step(s, e).ps, p, if Schedules(e) then 1 else 0)
  {
    hide KernelInv, Handle, CallDefined, I.Inv;
    if e.Tick? {
      InvHalves(s);
      TickAdvances(s.ps, p);
    } else {
      RecordedInv(s, e);
      HandleAdvances(s.(ps := Recorded(s.ps, e)), e, p);
    }
  }

  // ---------- whole runs ----------

  function ScheduleCount(es: seq<Event>): nat {
    if es == [] then 0 else (if Schedules(es[0]) then 1 else 0) + ScheduleCount(es[1..])
  }

  /** `p` gets the CPU along the run, after at most `n` scheduler runs. */
  ghost predicate RunsWithin(run: seq<State>, es: seq<Event>, p: nat, n: int)
    requires |run| == |es| + 1
  {
    exists k :: (0 < k <= |es| && run[k].ps.running == Some(p) && ScheduleCount(es[..k]) <= n)
  }

  lemma RunsLater(run: seq<State>, es: seq<Event>, p: nat, n: int)
    requires |run| == |es| + 1 && es != [] && RunsWithin(run[1..], es[1..], p, n)
    ensures RunsWithin(run, es, p, n + if Schedules(es[0]) then 1 else 0)
  {
    var j :| 0 < j <= |es[1..]| && run[1..][j].ps.running == Some(p) && ScheduleCount(es[1..][..j]) <= n;
    assert es[..j + 1][1..] == es[1..][..j];
    assert run[j + 1].ps.running == Some(p);
  }

  lemma RunsNow(run: seq<State>, es: seq<Event>, p: nat, n: int)
    requires |run| == |es| + 1 && es != [] && run[1].ps.running == Some(p) && n >= 1
    ensures RunsWithin(run, es, p, n)
  {
    assert es[..1][1..] == [];
    assert ScheduleCount(es[..1]) <= 1;
  }

  /** A process with pressure n runs by the (n+1)-th scheduler run at the latest, in every run of the kernel. */
  lemma {:induction false} RunsInTime(run: seq<State>, es: seq<Event>, p: nat)
    requires IsRun(run, es) && KernelInv(run[0]) && p in run[0].ps.ready
    requires ScheduleCount(es) > Pressure(run[0].ps, p)
    ensures RunsWithin(run, es, p, Pressure(run[0].ps, p) + 1)
    decreases es
  {
    hide KernelInv, Step, RunsWithin, Enabled;
    RunTail(run, es);
    StepAdvances(run[0], es[0], p);
    if run[1].ps.running == Some(p) {
      RunsNow(run, es, p, Pressure(run[0].ps, p) + 1);
    } else {
      StepKeepsInv(run[0], es[0]);
      RunsInTime(run[1..], es[1..], p);
      RunsLater(run, es, p, Pressure(run[1].ps, p) + 1);
      RunsWithinMore(run, es, p, Pressure(run[1].ps, p) + 1 + if Schedules(es[0]) then 1 else 0,
                     Pressure(run[0].ps, p) + 1);
    }
  }

  lemma RunsWithinMore(run: seq<State>, es: seq<Event>, p: nat, m: int, n: int)
    requires |run| == |es| + 1 && m <= n && RunsWithin(run, es, p, m)
    ensures RunsWithin(run, es, p, n)
  {
  }

  /** With at most 1024 processes, 1023 scheduler runs are always enough. */
  lemma PressureBound(s: P.Procs, p: nat)
    requires I.Inv(s) && s.running.Some? && p in s.ready
    ensures Pressure(s, p) <= MAX_NUM_PROCESSES - 2
  {
    hide I.Family, I.Named;
    var all := s.ready + Pids(s) + [s.running.value];
    NoDupConcat(s.ready, Pids(s));
    NoDupSnoc(s.ready + Pids(s), s.running.value);
    NoDupFits(all, s.pcb.Keys);
  }

  function Pids(s: P.Procs): seq<nat> {
    P.Pids(s.timers)
  }

  lemma RunCanRun(run: seq<State>, es: seq<Event>)
    requires IsRun(run, es) && es != []
    ensures |run| == |es| + 1 && P.CanRun(run[0].ps)
  {
    hide Step, CallDefined;
    RunTail(run, es);
  }

  lemma EveryReadyProcessRuns(run: seq<State>, es: seq<Event>, p: nat)
    requires IsRun(run, es) && KernelInv(run[0]) && es != [] && p in run[0].ps.ready
    requires ScheduleCount(es) >= MAX_NUM_PROCESSES - 1
    ensures RunsWithin(run, es, p, MAX_NUM_PROCESSES - 1)
  {
    hide KernelInv, I.Inv, IsRun, RunsWithin, Pressure, ScheduleCount;
    RunCanRun(run, es);
    InvHalves(run[0]);
    PressureBound(run[0].ps, p);
    RunsBy(run, es, p, MAX_NUM_PROCESSES - 1);
  }

  lemma RunsBy(run: seq<State>, es: seq<Event>, p: nat, n: nat)
    requires |run| == |es| + 1 && IsRun(run, es) && KernelInv(run[0]) && p in run[0].ps.ready
    requires Pressure(run[0].ps, p) < n <= ScheduleCount(es)
    ensures RunsWithin(run, es, p, n)
  {
    hide KernelInv, IsRun, RunsWithin, Pressure, ScheduleCount;
    RunsInTime(run, es, p);
    RunsWithinMore(run, es, p, Pressure(run[0].ps, p) + 1, n);
  }
}
