/** A run of the kernel, from boot, that leaks a descriptor: a child exits with a resource open while its parent is
    not waiting, and the parent reaps it later. */
module LeakRun {
  import opened Constants
  import opened Sequences
  import opened KernelSteps
  import opened KernelInvariant
  import L = LostWakeup
  import P = Processes
  import R = Resources
  import I = ProcessInvariant
  import FK = FamilyKeeps
  import D = Descriptors

  function Calls(): seq<Event> {
    [Spawn(0, 0), Preempt, OpenResource(5, 2, DSOS_CREATE), Exit(0), Wait(0, 0)]
  }

  /** The child has just got the CPU. */
  function ChildRuns(): State {
    L.At(2, 1, [0], [], [], map[0 := L.Proc(P.Ready, None, [1], DSOS_CALL_PREEMPT, 1),
                                1 := L.Proc(P.Running, Some(0), [], 0, 0)])
  }

  lemma ChildStarts()
    ensures L.S0() == Booted()
    ensures Enabled(L.S0(), Calls()[0]) && Step(L.S0(), Calls()[0]) == L.S1()
    ensures Enabled(L.S1(), Calls()[1]) && Step(L.S1(), Calls()[1]) == ChildRuns()
  {
    hide Step, Enabled, L.Unopened, Upto;
    L.BootIsFirst();
    L.Step0();
    L.Usable1();
    hide L.Homes, L.Usable;
    L.PreemptAt(2, 0, [1], [], [], L.S1().ps.pcb);
    assert [] + [0] == [0];
    assert Step(L.S1(), Preempt).ps.pcb == ChildRuns().ps.pcb;
  }

  lemma TableAfterOpen()
    ensures R.OpenDefined(L.Unopened(2), 1, 5, 2, DSOS_CREATE)
    ensures var u := R.OpenResource(L.Unopened(2), 1, 5, 2, DSOS_CREATE).table;
      u.files.Keys == {0, 1} && u.files[1].descs == [0]
  {
    UptoFacts(2);
    UptoFacts(MAX_NUM_PROCESSES);
    L.Opening(2, 1);
    assert L.Unopened(2).files.Keys == {0, 1};
  }

  /** The child holds a descriptor, its parent is ready, and the family is as it was. */
  ghost predicate ChildHolds(s: State) {
    && s.ps.init == 0 && s.ps.running == Some(1) && s.ps.ready == [0] && s.ps.timers == []
    && s.ps.pcb.Keys == {0, 1} && s.ps.pcb[1].parent == Some(0) && s.ps.pcb[1].children == []
    && s.ps.pcb[0].children == [1] && s.ps.pcb[0].status == P.Ready
    && s.rs.files.Keys == {0, 1} && s.rs.files[1].descs == [0]
    && s.ps.home == s.ps.tenant == L.Homes(2)
  }

  lemma ChildRecorded()
    ensures P.CanRun(ChildRuns().ps) && ChildRuns().ps.running == Some(1) && ChildRuns().rs == L.Unopened(2)
    ensures var r := Recorded(ChildRuns().ps, Calls()[2]);
      && P.CanRun(r) && r.init == 0 && r.running == Some(1) && r.ready == [0] && r.timers == []
      && r.pcb.Keys == {0, 1} && r.pcb[1].parent == Some(0) && r.pcb[1].children == []
      && r.pcb[0].children == [1] && r.pcb[0].status == P.Ready && r.home == r.tenant == L.Homes(2)
  {
    hide L.Unopened;
    L.HomesAre(2);
    var s := ChildRuns();
    assert P.CanRun(s.ps);
    assert Recorded(s.ps, Calls()[2]).pcb.Keys == {0, 1};
  }

  lemma ChildOpens()
    ensures var s, e := ChildRuns(), Calls()[2]; Enabled(s, e) && ChildHolds(Step(s, e))
  {
    hide R.OpenResource, R.OpenDefined, L.Unopened, ChildRuns, Recorded, P.Allocated, R.WellLinked;
    TableAfterOpen();
    L.Opening(2, 1);
    ChildRecorded();
    var s, e := ChildRuns(), Calls()[2];
    var r := Recorded(s.ps, e);
    assert CallDefined(r, s.rs, e);
    assert Step(s, e) == Returning(r, R.OpenResource(s.rs, 1, 5, 2, DSOS_CREATE));
  }

  /** The child is a zombie with its descriptor, and its parent runs. */
  ghost predicate ZombieHolds(s: State) {
    && s.ps.running == Some(0) && s.ps.pcb.Keys == {0, 1} && s.ps.pcb[0].children == [1]
    && s.ps.pcb[1].status == P.Zombie
    && s.rs.files.Keys == {0, 1} && s.rs.files[1].descs == [0]
  }

  lemma ChildExits(s: State)
    requires KernelInv(s) && ChildHolds(s)
    ensures Enabled(s, Exit(0)) && ZombieHolds(Step(s, Exit(0)))
  {
    hide KernelInv, I.Inv, P.Buried, P.Heir, P.Exit, P.Allocated, P.WaitsFor, R.WellLinked, NoDup, R.CloseAll;
    InvHalves(s);
    I.InvAllocated(s.ps);
    RecordedInv(s, Exit(0));
    assert R.WellLinked(s.rs) && NoDup(s.rs.files[1].descs) by { FilesSound(s.rs); }
    var r := Recorded(s.ps, Exit(0));
    ChildDies(r);
    hide Recorded;
    assert Handle(s.(ps := r), Exit(0)).rs == s.rs;
  }

  /** The process half of that exit: nobody is handed anything. */
  lemma ChildDies(r: P.Procs)
    requires P.CanRun(r) && r.home == r.tenant == L.Homes(2) && r.pcb.Keys == {0, 1} && r.pcb[1].parent == Some(0)
    requires r.init == 0 && r.running == Some(1) && r.ready == [0] && r.pcb[1].children == []
    requires r.pcb[0].children == [1] && r.pcb[0].status == P.Ready
    ensures P.ExitDefined(r) && P.Heir(r) == Some(0) && !P.WaitsFor(P.Buried(r)[0], 1)
    ensures var t := P.Exit(r);
      && t.running == Some(0) && t.pcb.Keys == {0, 1} && t.pcb[0].children == [1] && t.pcb[1].status == P.Zombie
  {
    hide P.Buried, P.Referent;
    Parent(r);
    FK.ExitCases(r);
    FK.BuriedFields(r, 0);
    FK.BuriedFields(r, 1);
  }

  lemma Parent(s: P.Procs)
    requires s.home == s.tenant == L.Homes(2) && s.pcb.Keys == {0, 1} && s.running == Some(1)
    requires s.pcb[1].parent == Some(0)
    ensures P.Heir(s) == Some(0)
  {
    L.HomesAre(2);
  }

  lemma ParentReaps(s: State)
    requires KernelInv(s) && ZombieHolds(s)
    ensures Enabled(s, Wait(0, 0)) && D.LeaksAt(s, Wait(0, 0))
  {
    hide KernelInv, I.Inv, R.WellLinked;
    InvHalves(s);
    I.InvAllocated(s.ps);
    RecordedInv(s, Wait(0, 0));
    FilesSound(s.rs);
    assert Recorded(s.ps, Wait(0, 0)).pcb.Keys == {0, 1};
  }

  /** Nothing leaks until the last of the five calls, a wait, reaps a child that still holds a descriptor. */
  lemma DescriptorLeaks() returns (run: seq<State>)
    ensures IsRun(run, Calls()) && run[0] == Booted()
    ensures D.LeaksAt(run[4], Calls()[4]) && D.NoLeak(run[4].rs) && !D.NoLeak(run[5].rs)
  {
    hide Step, Enabled, KernelInv, ChildHolds, ZombieHolds, ChildRuns, L.S0, L.S1, D.LeaksAt, D.NoLeak;
    ChildStarts();
    ChildOpens();
    BootedInv();
    var s3 := Step(ChildRuns(), Calls()[2]);
    var early := [L.S0(), L.S1(), ChildRuns(), s3];
    assert IsRun(early, Calls()[..3]);
    RunKeepsInv(early, Calls()[..3], 3);
    ChildExits(s3);
    var s4 := Step(s3, Calls()[3]);
    StepKeepsInv(s3, Calls()[3]);
    ParentReaps(s4);
    run := early + [s4, Step(s4, Calls()[4])];
    OnlyWaitLeaks(run);
    BootedNoLeak();
    D.RunNoLeak(run, Calls(), 4);
    D.StepNoLeak(s4, Calls()[4]);
  }

  lemma OnlyWaitLeaks(run: seq<State>)
    requires |run| == 6
    ensures forall i :: 0 <= i < 4 ==> !D.LeaksAt(run[i], Calls()[i])
  {
  }

  lemma BootedNoLeak()
    ensures D.NoLeak(Booted().rs)
  {
  }
}
