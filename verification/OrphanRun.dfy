/** A run of the kernel, from boot, to an exit that cannot be carried out: the parent of a process dies, its block
    goes to a new process, and that one waits for a child of its own when the orphan exits. */
module OrphanRun {
  import opened Constants
  import opened Sequences
  import opened KernelSteps
  import opened KernelInvariant
  import P = Processes
  import R = Resources
  import L = LostWakeup
  import I = ProcessInvariant
  import FK = FamilyKeeps
  import NI = NoIdle

  function Calls(): seq<Event> {
    [Spawn(0, 0), Wait(0, 0), Spawn(0, 0), Exit(0), Spawn(0, 0), Wait(0, 0), Preempt, Spawn(0, 0), Wait(0, 0)]
  }

  // ---------- the states ----------

  ghost predicate Is(s: P.Procs, p: nat, status: P.Status, parent: Option<nat>, children: seq<nat>) {
    p in s.pcb && s.pcb[p].status == status && s.pcb[p].parent == parent && s.pcb[p].children == children
  }

  /** `n` processes have been made, and at least `spare` more can be. */
  ghost predicate Queued(s: P.Procs, n: nat, running: nat, ready: seq<nat>, spare: nat) {
    && s.init == 0 && s.lastPid == n && s.running == Some(running) && s.ready == ready && s.timers == []
    && |s.pcbPool| >= spare && s.ptrFree >= spare
  }

  /** Process 1 is gone, and `pid` was the last to get its block. */
  ghost predicate Reused(s: P.Procs, pid: nat) {
    1 !in s.pcb && 1 in s.home && s.home[1] == 1 && 1 in s.tenant && s.tenant[1] == pid
  }

  /** Process 1 runs, has a child, and init waits for it. */
  ghost predicate ParentRuns(s: P.Procs) {
    && Queued(s, 3, 1, [2], 2) && Is(s, 1, P.Ready, Some(0), [2]) && Is(s, 2, P.Ready, Some(1), [])
    && Is(s, 0, P.Waiting, None, [1]) && P.WaitsFor(s.pcb[0], 1)
    && s.home == s.tenant == L.Homes(3) && 1 !in s.pcbPool
  }

  ghost predicate ParentGone(s: P.Procs) {
    && Queued(s, 3, 0, [2], 2) && s.pcbPool[0] == 1 && 1 !in s.pcbPool[1..] && Reused(s, 1)
    && Is(s, 0, P.Running, None, [2]) && Is(s, 2, P.Ready, Some(1), [])
  }

  ghost predicate BlockReused(s: P.Procs) {
    && Queued(s, 4, 0, [2, 3], 1) && Reused(s, 3) && 1 !in s.pcbPool
    && Is(s, 0, P.Running, None, [2, 3]) && Is(s, 2, P.Ready, Some(1), []) && Is(s, 3, P.Ready, Some(0), [])
  }

  ghost predicate OrphanRuns(s: P.Procs) {
    && Queued(s, 4, 2, [3], 1) && Reused(s, 3) && 1 !in s.pcbPool
    && Is(s, 2, P.Ready, Some(1), []) && Is(s, 3, P.Ready, Some(0), [])
  }

  ghost predicate TenantRuns(s: P.Procs) {
    && Queued(s, 4, 3, [2], 1) && Reused(s, 3) && 1 !in s.pcbPool
    && Is(s, 2, P.Ready, Some(1), []) && Is(s, 3, P.Running, Some(0), [])
  }

  ghost predicate TenantSpawned(s: P.Procs) {
    && Queued(s, 5, 3, [2, 4], 0) && Reused(s, 3)
    && Is(s, 2, P.Ready, Some(1), []) && Is(s, 3, P.Running, Some(0), [4]) && Is(s, 4, P.Ready, Some(3), [])
  }

  ghost predicate TenantWaits(s: P.Procs) {
    && Queued(s, 5, 2, [4], 0) && Reused(s, 3) && Is(s, 2, P.Ready, Some(1), [])
    && Is(s, 3, P.Waiting, Some(0), [4]) && P.WaitsFor(s.pcb[3], 2)
  }

  // ---------- the calls ----------

  lemma Spawns(s: State)
    requires KernelInv(s) && s.ps.running.Some? && s.ps.pcbPool != [] && s.ps.ptrFree > 0
    ensures P.CanRun(s.ps) && P.SpawnDefined(Recorded(s.ps, Spawn(0, 0)))
    ensures Enabled(s, Spawn(0, 0)) && KernelInv(Step(s, Spawn(0, 0)))
    ensures Step(s, Spawn(0, 0)).ps == P.Spawn(Recorded(s.ps, Spawn(0, 0)))
  {
    hide KernelInv, Recorded, R.WellLinked, P.Allocated;
    Calling(s, Spawn(0, 0));
    StepKeepsInv(s, Spawn(0, 0));
  }

  /** Exit to a parent that waits. */
  lemma ParentExits(s: State)
    requires KernelInv(s) && ParentRuns(s.ps)
    ensures Enabled(s, Exit(0)) && KernelInv(Step(s, Exit(0))) && ParentGone(Step(s, Exit(0)).ps)
  {
    hide KernelInv, Recorded, R.WellLinked, P.Allocated, P.Exit;
    Calling(s, Exit(0));
    ParentDies(Recorded(s.ps, Exit(0)));
    StepKeepsInv(s, Exit(0));
  }

  lemma ParentDies(r: P.Procs)
    requires P.CanRun(r) && ParentRuns(r)
    ensures P.ExitDefined(r) && ParentGone(P.Exit(r))
  {
    hide P.Buried, P.Referent, P.Allocated;
    Parent(r);
    FK.ExitCases(r);
    FK.BuriedFields(r, 0);
    FK.BuriedFields(r, 1);
    FK.BuriedFields(r, 2);
    MinusHead(1, [2]);
    MinusHead(0, []);
  }

  lemma Parent(s: P.Procs)
    requires ParentRuns(s)
    ensures P.Referent(s, 0) == Some(0)
    ensures 1 in s.home && s.home[1] == 1 && 1 in s.tenant && s.tenant[1] == 1
  {
    L.HomesAre(3);
  }

  lemma MinusHead(x: nat, rest: seq<nat>)
    requires x !in rest
    ensures Minus([x] + rest, [x]) == rest
  {
    assert ([x] + rest)[1..] == rest;
    MinusNothing(rest, [x]);
  }

  lemma InitSpawns(s: State)
    requires KernelInv(s) && ParentGone(s.ps)
    ensures Enabled(s, Spawn(0, 0)) && KernelInv(Step(s, Spawn(0, 0))) && BlockReused(Step(s, Spawn(0, 0)).ps)
  {
    hide KernelInv, Recorded, Step, Enabled, P.Allocated;
    Calling(s, Spawn(0, 0));
    Spawns(s);
    NewPid(s, 3);
  }

  lemma NewPid(s: State, n: nat)
    requires KernelInv(s) && s.ps.lastPid == n
    ensures n !in s.ps.pcb
  {
    hide I.Inv;
    InvHalves(s);
    PidsBelow(s.ps);
  }

  /** Waiting for a child that is no zombie, with somebody else ready. */
  lemma Waits(s: State)
    requires KernelInv(s) && s.ps.running.Some? && s.ps.running.value in s.ps.pcb && s.ps.ready != []
    requires var cs := s.ps.pcb[s.ps.running.value].children;
      cs != [] && forall c <- cs :: c in s.ps.pcb && s.ps.pcb[c].status != P.Zombie && c != s.ps.running.value
    ensures Enabled(s, Wait(0, 0)) && KernelInv(Step(s, Wait(0, 0)))
    ensures P.CanRun(Recorded(s.ps, Wait(0, 0)))
    ensures Step(s, Wait(0, 0)).ps == P.BlockInWait(Recorded(s.ps, Wait(0, 0)))
  {
    hide KernelInv, Recorded, R.WellLinked, P.Allocated, P.ScanIndex;
    Calling(s, Wait(0, 0));
    StepKeepsInv(s, Wait(0, 0));
  }

  lemma InitWaits(s: State)
    requires KernelInv(s) && BlockReused(s.ps)
    ensures Enabled(s, Wait(0, 0)) && KernelInv(Step(s, Wait(0, 0))) && OrphanRuns(Step(s, Wait(0, 0)).ps)
  {
    hide KernelInv, Recorded, Step, Enabled, P.Allocated;
    Calling(s, Wait(0, 0));
    Waits(s);
  }

  lemma OrphanYields(s: State)
    requires KernelInv(s) && OrphanRuns(s.ps)
    ensures Enabled(s, Preempt) && KernelInv(Step(s, Preempt)) && TenantRuns(Step(s, Preempt).ps)
  {
    hide KernelInv, Recorded, P.Schedule, P.Allocated, R.WellLinked;
    Calling(s, Preempt);
    var r := Recorded(s.ps, Preempt);
    L.JustRotates(r);
    StepKeepsInv(s, Preempt);
    assert P.Rotate(r).pcb[3].status == P.Running;
  }

  lemma TenantSpawns(s: State)
    requires KernelInv(s) && TenantRuns(s.ps)
    ensures Enabled(s, Spawn(0, 0)) && KernelInv(Step(s, Spawn(0, 0))) && TenantSpawned(Step(s, Spawn(0, 0)).ps)
  {
    hide KernelInv, Recorded, Step, Enabled, P.Allocated;
    Calling(s, Spawn(0, 0));
    Spawns(s);
    NewPid(s, 4);
    assert [] + [4] == [4];
  }

  lemma TenantBlocks(s: State)
    requires KernelInv(s) && TenantSpawned(s.ps)
    ensures Enabled(s, Wait(0, 0)) && KernelInv(Step(s, Wait(0, 0))) && TenantWaits(Step(s, Wait(0, 0)).ps)
  {
    hide KernelInv, Recorded, Step, Enabled, P.Allocated;
    Calling(s, Wait(0, 0));
    Waits(s);
  }

  /** Whatever value the orphan exits with, its parent pointer leads to a process that waits and does not list it. */
  lemma OrphanStuck(s: State, value: int)
    requires KernelInv(s) && TenantWaits(s.ps)
    ensures NI.MistakenFor(s.ps, 2) && P.CanRun(s.ps) && s.ps.ready != [] && !Enabled(s, Exit(value))
  {
    hide KernelInv, Recorded, I.Inv, P.Allocated;
    Calling(s, Exit(value));
    var r := Recorded(s.ps, Exit(value));
    InvHalves(s.(ps := r));
    NI.OthersCanBlock(r);
  }

  // ---------- the run ----------

  lemma ParentStarts() returns (run: seq<State>)
    ensures IsRun(run, Calls()[..3]) && run[0] == Booted() && ParentRuns(run[3].ps) && KernelInv(run[3])
  {
    hide Step, Enabled, L.S0, L.S1, L.S2, L.S3, KernelInv;
    L.BootIsFirst();
    L.Step0();
    L.Step1();
    L.Step2();
    run := [L.S0(), L.S1(), L.S2(), L.S3()];
    assert IsRun(run, Calls()[..3]);
    BootedInv();
    RunKeepsInv(run, Calls()[..3], 3);
    assert ParentRuns(L.S3().ps) by { ParentInPlace(); }
  }

  lemma ParentInPlace()
    ensures ParentRuns(L.S3().ps)
  {
    hide L.Homes, L.Unopened;
    UptoFacts(MAX_NUM_PROCESSES);
    hide Upto;
  }

  /** Nine calls from boot, after which somebody is ready and still the running process cannot exit. */
  lemma OrphanCannotExit() returns (run: seq<State>)
    ensures IsRun(run, Calls()) && run[0] == Booted()
    ensures var s := run[9];
      && s.ps.ready != [] && s.ps.running.Some? && s.ps.running.value != s.ps.init
      && s.ps.running.value in s.ps.pcb && NI.MistakenFor(s.ps, s.ps.running.value)
      && forall value: int :: !Enabled(s, Exit(value))
  {
    hide Step, Enabled, KernelInv, ParentRuns, ParentGone, BlockReused, OrphanRuns, TenantRuns, TenantSpawned;
    var early := ParentStarts();
    ParentExits(early[3]);
    var s4 := Step(early[3], Exit(0));
    InitSpawns(s4);
    var s5 := Step(s4, Spawn(0, 0));
    InitWaits(s5);
    var s6 := Step(s5, Wait(0, 0));
    OrphanYields(s6);
    var s7 := Step(s6, Preempt);
    TenantSpawns(s7);
    var s8 := Step(s7, Spawn(0, 0));
    TenantBlocks(s8);
    var s9 := Step(s8, Wait(0, 0));
    run := early + [s4, s5, s6, s7, s8, s9];
    forall i | 0 <= i < 9 ensures Leads(run[i], Calls()[i], run[i + 1]) {
      if i < 3 {
        RunStep(early, Calls()[..3], i);
      }
    }
    forall value: int ensures !Enabled(s9, Exit(value)) {
      OrphanStuck(s9, value);
    }
    OrphanStuck(s9, 0);
  }
}
