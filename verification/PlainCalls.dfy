/** What a tick, preempt, sleep, spawn, fork and a call that does not exist do to the whole state, field by field. */
module PlainCalls {
  import opened Constants
  import opened KernelSteps
  import opened KernelInvariant
  import opened Callers
  import P = Processes
  import R = Resources
  import I = ProcessInvariant
  import SK = ScheduleKeeps

  /** A tick advances the clock by one and gives the CPU to the first of the processes that are due or ready. */
  lemma TickMeans(s: State) returns (due: nat)
    requires KernelInv(s) && Enabled(s, Tick)
    ensures var t := Step(s, Tick);
      && t.rs == s.rs && due <= |s.ps.timers| && s.ps.running.Some?
      && SK.Scheduled(s.ps.(time := s.ps.time + 1), t.ps, due)
  {
    hide I.Inv, SK.Scheduled, P.Schedule, P.ScheduleDefined;
    InvHalves(s);
    var u := s.ps.(time := s.ps.time + 1);
    ClockInv(s.ps);
    SK.ScheduleMeans(u);
    due := P.DueCount(u.timers, u.time);
  }

  /** Preempt does the same at the time that it is. */
  lemma PreemptMeans(s: State) returns (due: nat)
    requires KernelInv(s) && Enabled(s, Preempt)
    ensures var me, t := s.ps.running.value, Step(s, Preempt);
      && t.rs == s.rs && due <= |s.ps.timers| && s.ps.running.Some? && me in s.ps.pcb
      && SK.Scheduled(s.ps.(pcb := s.ps.pcb[me := Loaded(s.ps.pcb[me], DSOS_CALL_PREEMPT, [])]), t.ps, due)
  {
    hide KernelInv, I.Inv, SK.Scheduled, P.Schedule, R.WellLinked, P.Allocated;
    Calling(s, Preempt);
    var r := Recorded(s.ps, Preempt);
    InvHalves(s.(ps := r));
    SK.ScheduleMeans(r);
    due := P.DueCount(r.timers, r.time);
    assert Recording(s.ps, r, s.ps.running.value, DSOS_CALL_PREEMPT, []);
  }

  lemma SleepMeans(s: State, cycles: int)
    requires KernelInv(s) && Enabled(s, Sleep(cycles))
    ensures var me, t := s.ps.running.value, Step(s, Sleep(cycles));
      t.rs == s.rs && Sleeps(s.ps, t.ps, me, DSOS_CALL_SLEEP, [cycles], s.ps.time + cycles)
  {
    hide KernelInv, I.Inv, Sleeps, P.BlockOnTimer, R.WellLinked, P.Allocated;
    var e, me := Sleep(cycles), s.ps.running.value;
    Calling(s, e);
    var r := Recorded(s.ps, e);
    InvHalves(s.(ps := r));
    BlockMeans(s.ps, r, me, DSOS_CALL_SLEEP, [cycles], s.ps.time + cycles);
  }

  /** The new process `c` is the last child and the last to be ready, has registers of its own, and is in block `b`;
      the caller gets its pid and runs on. */
  ghost predicate Begets(s: P.Procs, t: P.Procs, me: nat, num: int, argv: seq<int>, c: nat, b: nat) {
    && s.running == Some(me) && me in s.pcb && |argv| <= MAX_SYSCALLS_ARGS && s.pcbPool != [] && s.ptrFree > 0
    && c == s.lastPid && c !in s.pcb && b == s.pcbPool[0] && (forall p <- s.pcb :: p in s.home && s.home[p] != b)
    && t == s.(lastPid := c + 1, ptrFree := s.ptrFree - 1, pcbPool := s.pcbPool[1..], home := s.home[c := b],
               tenant := s.tenant[b := c], ready := s.ready + [c], pcb := t.pcb)
    && t.pcb.Keys == s.pcb.Keys + {c}
    && (forall p <- s.pcb :: p != me ==> t.pcb[p] == s.pcb[p])
    && t.pcb[me] == Loaded(s.pcb[me], num, argv).(children := s.pcb[me].children + [c], retvalue := c)
    && t.pcb[c] == P.Pcb(P.Ready, Some(me), [], false, {}, {P.SIGCHLD, P.SIGHUP}, 0, 0, [0, 0, 0, 0, 0, 0, 0, 0], 0)
  }

  lemma NewProcessMeans(s: State, e: Event)
    requires KernelInv(s) && Enabled(s, e) && (e.Spawn? || e.Fork?)
    ensures var me, c, t := s.ps.running.value, s.ps.lastPid, Step(s, e);
      && s.ps.pcbPool != [] && t.rs == s.rs.(files := s.rs.files[c := R.Files(0, [])])
      && (e.Spawn? ==> Begets(s.ps, t.ps, me, DSOS_CALL_SPAWN, [e.entry, e.argument], c, s.ps.pcbPool[0]))
      && (e.Fork? ==> Begets(s.ps, t.ps, me, DSOS_CALL_FORK, [], c, s.ps.pcbPool[0]))
  {
    hide KernelInv, I.Inv, R.WellLinked, P.Allocated, Begets, P.Spawn;
    var me := s.ps.running.value;
    Calling(s, e);
    var r := Recorded(s.ps, e);
    InvHalves(s.(ps := r));
    BegetMeans(s.ps, r, me, Number(e), Arguments(e));
  }

  lemma BegetMeans(s: P.Procs, r: P.Procs, me: nat, num: int, argv: seq<int>)
    requires Recording(s, r, me, num, argv) && P.SpawnDefined(r) && I.Inv(r)
    ensures Begets(s, P.Spawn(r), me, num, argv, s.lastPid, s.pcbPool[0])
  {
    hide P.Allocated;
    FreshPid(r);
    BlockUnused(r);
    hide I.Inv;
  }

  lemma BlockUnused(s: P.Procs)
    requires I.Inv(s) && s.pcbPool != []
    ensures forall p <- s.pcb :: p in s.home && s.home[p] != s.pcbPool[0]
  {
    assert s.pcbPool[0] in s.pcbPool && I.Vacant(s, s.pcbPool[0]);
    forall p <- s.pcb ensures p in s.home && s.home[p] != s.pcbPool[0] {
      assert I.Lives(s, p);
    }
  }

  lemma UnimplementedMeans(s: State, num: int)
    requires KernelInv(s) && Enabled(s, Unimplemented(num))
    ensures var me, t := s.ps.running.value, Step(s, Unimplemented(num));
      t.rs == s.rs && Answered(s.ps, t.ps, me, num, [], DSOS_ESYSCALL_NOT_IMPLEMENTED)
  {
    hide KernelInv, R.WellLinked, P.Allocated;
    Calling(s, Unimplemented(num));
    ReturnMeans(s.ps, Recorded(s.ps, Unimplemented(num)), s.ps.running.value, num, [], DSOS_ESYSCALL_NOT_IMPLEMENTED);
  }
}
