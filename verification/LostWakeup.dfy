/** A run of the kernel, from boot, that loses a wakeup: three generations are spawned while init waits for any
    child; the youngest exits, then its parent, which never collected it. */
module LostWakeup {
  import opened Constants
  import opened Sequences
  import opened KernelSteps
  import opened P = Processes
  import R = Resources
  import FK = FamilyKeeps
  import W = Wakeups

  const NO_ARGS: Registers := [0, 0, 0, 0, 0, 0, 0, 0]

  function Proc(status: Status, parent: Option<nat>, children: seq<nat>, num: int, retvalue: int): Pcb {
    FreshPcb.(status := status, parent := parent, children := children, syscallNum := num, retvalue := retvalue)
  }

  function Init(children: seq<nat>): Pcb { Proc(Waiting, None, children, DSOS_CALL_WAIT, 1) }

  function First(status: Status): Pcb { Proc(status, Some(0), [2], DSOS_CALL_PREEMPT, 2) }

  function Second(status: Status): Pcb { Proc(status, Some(1), [3], DSOS_CALL_PREEMPT, 3) }

  function Third(status: Status): Pcb { Proc(status, Some(2), [], 0, 0) }

  /** `n` processes have been made, nobody has opened anything and no timer is set. */
  function At(n: nat, running: nat, ready: seq<nat>, waiting: seq<nat>, zombies: seq<nat>, pcb: map<nat, Pcb>): State
    requires 1 <= n <= 4
  {
    State(Procs(0, n, 0, Some(running), ready, waiting, zombies, [], pcb,
                Homes(n), Homes(n), Upto(MAX_NUM_PROCESSES)[n..], MAX_NUM_PROCESSES, MAX_NUM_PROCESSES + 1 - n, []),
          Unopened(n))
  }

  /** The n-th process is in the n-th block. */
  function Homes(n: nat): map<nat, nat> {
    map p | p in Upto(n) :: p
  }

  function Unopened(n: nat): R.Table {
    BootedTable().(files := map p | p in Upto(n) :: R.Files(0, []))
  }

  lemma HomesAre(n: nat)
    ensures forall p: nat :: p in Homes(n) <==> p < n
    ensures forall p: nat :: p < n ==> Homes(n)[p] == p
    ensures Homes(n)[n := n] == Homes(n + 1)
    ensures n < MAX_NUM_PROCESSES ==>
      var pool := Upto(MAX_NUM_PROCESSES)[n..];
      pool != [] && pool[0] == n && pool[1..] == Upto(MAX_NUM_PROCESSES)[n + 1..]
  {
    UptoFacts(n);
    UptoFacts(n + 1);
  }

  function S0(): State {
    At(1, 0, [], [], [], map[0 := Proc(Running, None, [], 0, 0)])
  }

  function S1(): State {
    At(2, 0, [1], [], [],
       map[0 := Proc(Running, None, [1], DSOS_CALL_SPAWN, 1),
           1 := Proc(Ready, Some(0), [], 0, 0)])
  }

  function S2(): State {
    At(2, 1, [], [0], [], map[0 := Init([1]), 1 := Proc(Ready, Some(0), [], 0, 0)])
  }

  function S3(): State {
    At(3, 1, [2], [0], [],
       map[0 := Init([1]),
           1 := Proc(Ready, Some(0), [2], DSOS_CALL_SPAWN, 2),
           2 := Proc(Ready, Some(1), [], 0, 0)])
  }

  function S4(): State {
    At(3, 2, [1], [0], [], map[0 := Init([1]), 1 := First(Ready), 2 := Proc(Running, Some(1), [], 0, 0)])
  }

  function S5(): State {
    At(4, 2, [1, 3], [0], [],
       map[0 := Init([1]),
           1 := First(Ready),
           2 := Proc(Running, Some(1), [3], DSOS_CALL_SPAWN, 3),
           3 := Third(Ready)])
  }

  function S6(): State {
    At(4, 1, [3, 2], [0], [], map[0 := Init([1]), 1 := First(Running), 2 := Second(Ready), 3 := Third(Ready)])
  }

  function S7(): State {
    At(4, 3, [2, 1], [0], [], map[0 := Init([1]), 1 := First(Ready), 2 := Second(Ready), 3 := Third(Running)])
  }

  function S8(): State {
    At(4, 2, [1], [0], [3],
       map[0 := Init([1]),
           1 := First(Ready),
           2 := Second(Running).(signals := {SIGCHLD}),
           3 := Third(Zombie).(syscallNum := DSOS_CALL_EXIT)])
  }

  function S9(): State {
    At(4, 1, [], [0], [3, 2],
       map[0 := Init([1, 3]),
           1 := First(Running).(signals := {SIGCHLD}),
           2 := Second(Zombie).(children := [], syscallNum := DSOS_CALL_EXIT, signals := {SIGCHLD}),
           3 := Third(Zombie).(syscallNum := DSOS_CALL_EXIT, signals := {SIGHUP})])
  }

  /** The registers stay zero, since all arguments are. */
  lemma Recording(s: State, e: Event)
    requires CanRun(s.ps) && !e.Tick? && s.ps.pcb[s.ps.running.value].args == NO_ARGS
    requires Arguments(e) == [] || Arguments(e) == [0] || Arguments(e) == [0, 0]
    ensures Recorded(s.ps, e) ==
      s.ps.(pcb := s.ps.pcb[s.ps.running.value := s.ps.pcb[s.ps.running.value].(syscallNum := Number(e))])
  {
    assert Arguments(e) + NO_ARGS[|Arguments(e)|..] == NO_ARGS;
  }

  lemma Opening(n: nat, p: nat)
    requires p < n
    ensures R.WellLinked(Unopened(n)) && p in Unopened(n).files && Unopened(n).files[p].descs == []
    ensures R.NewProcess(Unopened(n), n) == Unopened(n + 1)
  {
    UptoFacts(n);
    UptoFacts(n + 1);
    assert R.NewProcess(Unopened(n), n).files == Unopened(n + 1).files;
  }

  /** What the four calls of the run do to a state of this form. */
  lemma SpawnAt(n: nat, me: nat, ready: seq<nat>, waiting: seq<nat>, zombies: seq<nat>, m: map<nat, Pcb>)
    requires 1 <= n <= 3 && Usable(n, me, ready, waiting, zombies, m) && n !in m
    ensures var s, made := At(n, me, ready, waiting, zombies, m), Proc(Ready, Some(me), [], 0, 0);
      && Enabled(s, Event.Spawn(0, 0))
      && Step(s, Event.Spawn(0, 0)) == At(n + 1, me, ready + [n], waiting, zombies,
           m[me := m[me].(children := m[me].children + [n], syscallNum := DSOS_CALL_SPAWN, retvalue := n)][n := made])
  {
    hide Unopened, Recorded, Homes, Upto;
    Opening(n, me);
    HomesAre(n);
    Recording(At(n, me, ready, waiting, zombies, m), Event.Spawn(0, 0));
  }

  lemma PreemptAt(n: nat, me: nat, ready: seq<nat>, waiting: seq<nat>, zombies: seq<nat>, m: map<nat, Pcb>)
    requires 1 <= n <= 4 && Usable(n, me, ready, waiting, zombies, m) && ready != []
    ensures var s := At(n, me, ready, waiting, zombies, m);
      && Enabled(s, Preempt)
      && Step(s, Preempt) == At(n, ready[0], ready[1..] + [me], waiting, zombies,
           SetStatus(m[me := m[me].(status := Ready, syscallNum := DSOS_CALL_PREEMPT)], ready[0], Running))
  {
    hide Unopened, Recorded, Schedule, Homes, Upto;
    Opening(n, me);
    var s := At(n, me, ready, waiting, zombies, m);
    Recording(s, Preempt);
    assert ready[0] in ready;
    JustRotates(Recorded(s.ps, Preempt));
  }

  lemma JustRotates(s: Procs)
    requires CanRun(s) && s.timers == []
    ensures ScheduleDefined(s) && Schedule(s) == Rotate(s)
  {
    MinusNothing(s.waiting, []);
    assert WakeAll(s.pcb, []) == s.pcb;
    assert Wake(s) == s;
  }

  lemma WaitAt(n: nat, me: nat, ready: seq<nat>, waiting: seq<nat>, zombies: seq<nat>, m: map<nat, Pcb>)
    requires 1 <= n <= 4 && Usable(n, me, ready, waiting, zombies, m) && ready != []
    requires |m[me].children| == 1 && m[me].children[0] in m && m[me].children[0] != me
    requires m[m[me].children[0]].status != Zombie
    ensures var s := At(n, me, ready, waiting, zombies, m);
      && Enabled(s, Event.Wait(0, 0))
      && Step(s, Event.Wait(0, 0)) == At(n, ready[0], ready[1..], waiting + [me], zombies,
           m[me := m[me].(status := Waiting, syscallNum := DSOS_CALL_WAIT)])
  {
    hide Unopened, Recorded, Homes, Upto;
    Opening(n, me);
    Recording(At(n, me, ready, waiting, zombies, m), Event.Wait(0, 0));
  }

  lemma Masked(sig: Signal)
    ensures {} + ({sig} * {SIGCHLD, SIGHUP}) == {sig}
  {
  }

  function Mourned(m: map<nat, Pcb>, me: nat, parent: nat): map<nat, Pcb>
    requires me in m && parent in m
  {
    var g := SetStatus(Reparent(m[me := m[me].(syscallNum := DSOS_CALL_EXIT)], me, 0), me, Zombie);
    g[parent := Signalled(g[parent], SIGCHLD)]
  }

  lemma ExitAt(n: nat, me: nat, ready: seq<nat>, waiting: seq<nat>, zombies: seq<nat>, m: map<nat, Pcb>, parent: nat)
    requires 1 <= n <= 4 && Usable(n, me, ready, waiting, zombies, m) && ready != [] && ready[0] in m
    requires me != 0 && parent != me && parent in m && m[me].parent == Some(parent) && m[parent].status != Waiting
    requires m[me].returnValue == 0
    ensures var s := At(n, me, ready, waiting, zombies, m);
      && Enabled(s, Event.Exit(0))
      && Step(s, Event.Exit(0)) == At(n, ready[0], ready[1..], waiting, zombies + [me],
           SetStatus(Mourned(m, me, parent), ready[0], Running))
  {
    hide Unopened, Recorded, Buried;
    Opening(n, me);
    var s := At(n, me, ready, waiting, zombies, m);
    Recording(s, Event.Exit(0));
    var r := Recorded(s.ps, Event.Exit(0));
    HomesAre(n);
    assert Heir(r) == Some(parent);
    hide Homes, Referent;
    assert ExitDefined(r);
    FK.ExitCases(r);
    FK.BuriedFields(r, parent);
    assert Buried(r) == Mourned(m, me, parent) by { Mourning(r, m, me, parent); }
  }

  lemma Mourning(r: Procs, m: map<nat, Pcb>, me: nat, parent: nat)
    requires me in m && m[me].returnValue == 0 && m[me].args == NO_ARGS && parent in m
    requires r.pcb == m[me := m[me].(syscallNum := DSOS_CALL_EXIT)] && r.init == 0 && r.running == Some(me)
    requires ExitDefined(r) && Heir(r) == Some(parent)
    ensures Buried(r) == Mourned(m, me, parent)
  {
    assert r.pcb[me := r.pcb[me].(returnValue := 0)] == r.pcb;
  }

  ghost predicate Usable(n: nat, me: nat, ready: seq<nat>, waiting: seq<nat>, zombies: seq<nat>, m: map<nat, Pcb>)
    requires 1 <= n <= 4
  {
    CanRun(At(n, me, ready, waiting, zombies, m).ps) && me < n && m[me].args == NO_ARGS
  }

  lemma Usable0()
    ensures Usable(1, 0, [], [], [], S0().ps.pcb)
  {
    hide Upto, Unopened;
    HomesAre(1);
  }

  lemma Usable1()
    ensures Usable(2, 0, [1], [], [], S1().ps.pcb)
  {
    hide Upto, Unopened;
    HomesAre(2);
  }

  lemma Usable2()
    ensures Usable(2, 1, [], [0], [], S2().ps.pcb)
  {
    hide Upto, Unopened;
    HomesAre(2);
  }

  lemma Usable3()
    ensures Usable(3, 1, [2], [0], [], S3().ps.pcb)
  {
    hide Upto, Unopened;
    HomesAre(3);
  }

  lemma Usable4()
    ensures Usable(3, 2, [1], [0], [], S4().ps.pcb)
  {
    hide Upto, Unopened;
    HomesAre(3);
  }

  lemma Usable5()
    ensures Usable(4, 2, [1, 3], [0], [], S5().ps.pcb)
  {
    hide Upto, Unopened;
    HomesAre(4);
  }

  lemma Usable6()
    ensures Usable(4, 1, [3, 2], [0], [], S6().ps.pcb)
  {
    hide Upto, Unopened;
    HomesAre(4);
  }

  lemma Usable7()
    ensures Usable(4, 3, [2, 1], [0], [], S7().ps.pcb)
  {
    hide Upto, Unopened;
    HomesAre(4);
  }

  lemma Usable8()
    ensures Usable(4, 2, [1], [0], [3], S8().ps.pcb)
  {
    hide Upto, Unopened;
    HomesAre(4);
  }

  lemma Step0()
    ensures Enabled(S0(), Event.Spawn(0, 0)) && Step(S0(), Event.Spawn(0, 0)) == S1()
  {
    hide Step, Enabled, Unopened, Upto;
    Usable0();
    hide Homes, Usable;
    SpawnAt(1, 0, [], [], [], S0().ps.pcb);
    assert [] + [1] == [1];
    assert Step(S0(), Event.Spawn(0, 0)).ps.pcb == S1().ps.pcb;
  }

  lemma Step1()
    ensures Enabled(S1(), Event.Wait(0, 0)) && Step(S1(), Event.Wait(0, 0)) == S2()
  {
    hide Step, Enabled, Unopened, Upto;
    Usable1();
    hide Homes, Usable;
    WaitAt(2, 0, [1], [], [], S1().ps.pcb);
    assert [] + [0] == [0];
    assert Step(S1(), Event.Wait(0, 0)).ps.pcb == S2().ps.pcb;
  }

  lemma Step2()
    ensures Enabled(S2(), Event.Spawn(0, 0)) && Step(S2(), Event.Spawn(0, 0)) == S3()
  {
    hide Step, Enabled, Unopened, Upto;
    Usable2();
    hide Homes, Usable;
    SpawnAt(2, 1, [], [0], [], S2().ps.pcb);
    assert [] + [2] == [2];
    assert Step(S2(), Event.Spawn(0, 0)).ps.pcb == S3().ps.pcb;
  }

  lemma Step3()
    ensures Enabled(S3(), Preempt) && Step(S3(), Preempt) == S4()
  {
    hide Step, Enabled, Unopened, Upto;
    Usable3();
    hide Homes, Usable;
    PreemptAt(3, 1, [2], [0], [], S3().ps.pcb);
    assert Step(S3(), Preempt).ps.pcb == S4().ps.pcb;
  }

  lemma Step4()
    ensures Enabled(S4(), Event.Spawn(0, 0)) && Step(S4(), Event.Spawn(0, 0)) == S5()
  {
    hide Step, Enabled, Unopened, Upto;
    Usable4();
    hide Homes, Usable;
    SpawnAt(3, 2, [1], [0], [], S4().ps.pcb);
    assert [] + [3] == [3];
    assert Step(S4(), Event.Spawn(0, 0)).ps.pcb == S5().ps.pcb;
  }

  lemma Step5()
    ensures Enabled(S5(), Preempt) && Step(S5(), Preempt) == S6()
  {
    hide Step, Enabled, Unopened, Upto;
    Usable5();
    hide Homes, Usable;
    PreemptAt(4, 2, [1, 3], [0], [], S5().ps.pcb);
    assert Step(S5(), Preempt).ps.pcb == S6().ps.pcb;
  }

  lemma Step6()
    ensures Enabled(S6(), Preempt) && Step(S6(), Preempt) == S7()
  {
    hide Step, Enabled, Unopened, Upto;
    Usable6();
    hide Homes, Usable;
    PreemptAt(4, 1, [3, 2], [0], [], S6().ps.pcb);
    assert Step(S6(), Preempt).ps.pcb == S7().ps.pcb;
  }

  lemma Step7()
    ensures Enabled(S7(), Event.Exit(0)) && Step(S7(), Event.Exit(0)) == S8()
  {
    hide Step, Enabled, Unopened, Upto;
    Usable7();
    hide Homes, Usable;
    ExitAt(4, 3, [2, 1], [0], [], S7().ps.pcb, 2);
    Masked(SIGCHLD);
    var m := S7().ps.pcb;
    assert m[0].children + m[3].children == [1];
    assert Step(S7(), Event.Exit(0)).ps.pcb == S8().ps.pcb;
  }

  lemma Step8()
    ensures Enabled(S8(), Event.Exit(0)) && Step(S8(), Event.Exit(0)) == S9()
  {
    hide Step, Enabled, Unopened, Upto;
    Usable8();
    hide Homes, Usable;
    ExitAt(4, 2, [1], [0], [3], S8().ps.pcb, 1);
    hide Mourned;
    SecondMourned();
  }

  lemma SecondMourned()
    ensures 1 in Mourned(S8().ps.pcb, 2, 1) && SetStatus(Mourned(S8().ps.pcb, 2, 1), 1, Running) == S9().ps.pcb
  {
    hide Unopened;
    Masked(SIGCHLD);
    Masked(SIGHUP);
    var m := S8().ps.pcb;
    assert m[0].children + m[2].children == [1, 3];
  }

  function Calls(): seq<Event> {
    [Event.Spawn(0, 0), Event.Wait(0, 0), Event.Spawn(0, 0), Preempt, Event.Spawn(0, 0), Preempt, Preempt,
     Event.Exit(0), Event.Exit(0)]
  }

  function Run(): seq<State> {
    [S0(), S1(), S2(), S3(), S4(), S5(), S6(), S7(), S8(), S9()]
  }

  /** The nine calls are a run of the kernel from boot. */
  lemma RunFromBoot()
    ensures IsRun(Run(), Calls()) && Run()[0] == Booted()
  {
    hide Step, Enabled, S0, S1, S2, S3, S4, S5, S6, S7, S8, S9;
    Step0();
    Step1();
    Step2();
    Step3();
    Step4();
    Step5();
    Step6();
    Step7();
    Step8();
    BootIsFirst();
  }

  lemma BootIsFirst()
    ensures S0() == Booted()
  {
    UptoFacts(1);
    assert forall p: nat :: p in Upto(1) <==> p == 0;
    assert BootedTable().files == Unopened(1).files;
  }

  /** In the end init sleeps in wait(0) although one of its children is a zombie; one call before, nobody was
      passed over. */
  lemma WakeupLost()
    ensures IsRun(Run(), Calls()) && Run()[0] == Booted()
    ensures W.NoLost(Run()[8].ps) && !W.NoLost(Run()[9].ps)
  {
    hide Unopened, Booted, IsRun;
    RunFromBoot();
    assert W.Lost(S9().ps, 0, 3);
  }
}
