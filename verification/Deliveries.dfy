/** Every exit value stays with the zombie until it is delivered, once, to whoever lists that zombie. */
module Deliveries {
  import opened Constants
  import opened Sequences
  import opened KernelSteps
  import opened KernelInvariant
  import P = Processes
  import R = Resources
  import I = ProcessInvariant
  import SK = ScheduleKeeps
  import FK = FamilyKeeps

  /** The value `v` with which `c` exited is still in its zombie, or has been delivered. */
  ghost predicate Kept(s: P.Procs, c: nat, v: int) {
    || (c in s.pcb && s.pcb[c].status == P.Zombie && s.pcb[c].returnValue == v)
    || (exists d <- s.deliveries :: d.child == c && d.value == v)
  }

  /** From `s` to `t` deliveries are only added, and exit values kept. */
  ghost predicate Carries(s: P.Procs, t: P.Procs) {
    && s.deliveries <= t.deliveries
    && forall c <- s.pcb :: s.pcb[c].status == P.Zombie ==> Kept(t, c, s.pcb[c].returnValue)
  }

  lemma CarriesKept(s: P.Procs, t: P.Procs, c: nat, v: int)
    requires Carries(s, t) && Kept(s, c, v)
    ensures Kept(t, c, v)
  {
    if d :| d in s.deliveries && d.child == c && d.value == v {
      var i :| 0 <= i < |s.deliveries| && s.deliveries[i] == d;
      assert t.deliveries[i] == d;
    }
  }

  /** No zombie is touched. */
  ghost predicate Spares(s: P.Procs, t: P.Procs) {
    && t.deliveries == s.deliveries
    && forall c <- s.pcb :: s.pcb[c].status == P.Zombie ==>
         c in t.pcb && t.pcb[c].status == P.Zombie && t.pcb[c].returnValue == s.pcb[c].returnValue
  }

  lemma SparesCarries(s: P.Procs, t: P.Procs)
    requires Spares(s, t)
    ensures Carries(s, t)
  {
  }

  lemma SparesTwice(s: P.Procs, t: P.Procs, u: P.Procs)
    requires Spares(s, t) && Spares(t, u)
    ensures Spares(s, u)
  {
  }

  lemma ScheduleSpares(s: P.Procs)
    requires I.Inv(s) && s.running.Some? && P.ScheduleDefined(s)
    ensures Spares(s, P.Schedule(s))
  {
    hide I.Inv;
    P.WakeAllocated(s);
    SK.WakeKeepsInv(s);
    WakeSpares(s);
    RotateSpares(P.Wake(s));
    SparesTwice(s, P.Wake(s), P.Schedule(s));
  }

  lemma WakeSpares(s: P.Procs)
    requires I.Inv(s)
    ensures Spares(s, P.Wake(s))
  {
    hide I.Family, I.Accounts, I.Named;
    SK.DuePidsFacts(s);
  }

  lemma RotateSpares(s: P.Procs)
    requires I.Inv(s) && P.Allocated(s) && (s.ready != [] ==> s.running.Some?)
    ensures Spares(s, P.Rotate(s))
  {
    hide I.Clocked, I.Family, I.Accounts, I.Named;
  }

  lemma RunningSpares(s: P.Procs, t: P.Procs)
    requires I.Inv(s) && P.CanRun(s) && t.deliveries == s.deliveries
    requires forall c <- s.pcb :: c != s.running.value ==> c in t.pcb && t.pcb[c] == s.pcb[c]
    ensures Spares(s, t)
  {
    hide I.Clocked, I.Family, I.Accounts, I.Named;
  }

  lemma QueueBlockSpares(s: P.Procs, code: int)
    requires I.Inv(s) && P.CanRun(s) && (!P.TimerRefused(s) ==> s.ready != [])
    ensures Spares(s, P.BlockOnQueue(s, code))
  {
    hide I.Clocked, I.Family, I.Accounts, I.Named;
  }

  lemma ReapCarries(s: P.Procs, k: nat)
    requires I.Inv(s) && P.CanRun(s) && k < |s.pcb[s.running.value].children|
    ensures Carries(s, P.Reap(s, k))
  {
    hide I.Clocked, I.Family, I.Accounts, I.Named;
    var t := P.Reap(s, k);
    var d := t.deliveries[|s.deliveries|];
    assert d in t.deliveries;
  }

  /** The exiting process's own value, and those of all other zombies. */
  lemma ExitCarries(s: P.Procs)
    requires I.Inv(s) && P.ExitDefined(s)
    ensures Carries(s, P.Exit(s))
    ensures Kept(P.Exit(s), s.running.value, s.pcb[s.running.value].args[0])
  {
    hide P.Buried, I.Inv;
    FK.ExitCases(s);
    FK.BuriedFields(s, s.running.value);
    if FK.HandsOver(s) {
      HandOverCarries(s);
    } else {
      BecomeZombieCarries(s);
    }
  }

  lemma HandOverCarries(s: P.Procs)
    requires I.Inv(s) && P.ExitDefined(s) && FK.HandsOver(s)
    ensures Carries(s, P.HandOver(s))
    ensures Kept(P.HandOver(s), s.running.value, s.pcb[s.running.value].args[0])
  {
    hide P.Buried, I.Clocked, I.Family, I.Accounts, I.Named;
    var me, t := s.running.value, P.HandOver(s);
    FK.BuriedFields(s, me);
    var d := t.deliveries[|s.deliveries|];
    assert d in t.deliveries;
    forall c <- s.pcb | s.pcb[c].status == P.Zombie ensures Kept(t, c, s.pcb[c].returnValue) {
      FK.BuriedFields(s, c);
    }
  }

  lemma BecomeZombieCarries(s: P.Procs)
    requires I.Inv(s) && P.ExitDefined(s) && s.ready != []
    ensures Carries(s, P.BecomeZombie(s))
    ensures Kept(P.BecomeZombie(s), s.running.value, s.pcb[s.running.value].args[0])
  {
    hide P.Buried, I.Clocked, I.Family, I.Accounts, I.Named;
    var me, t := s.running.value, P.BecomeZombie(s);
    FK.BuriedFields(s, me);
    assert s.ready[0] in s.ready;
    forall c <- s.pcb | s.pcb[c].status == P.Zombie ensures Kept(t, c, s.pcb[c].returnValue) {
      FK.BuriedFields(s, c);
    }
  }

  lemma WaitCarries(s: P.Procs)
    requires I.Inv(s) && P.WaitDefined(s)
    ensures Carries(s, P.Wait(s))
  {
    hide I.Inv;
    var cs := s.pcb[s.running.value].children;
    if cs != [] && s.pcb[cs[P.AwaitedIndex(s)]].status == P.Zombie {
      ReapCarries(s, P.AwaitedIndex(s));
    } else {
      RunningSpares(s, P.Wait(s));
      SparesCarries(s, P.Wait(s));
    }
  }

  lemma SpawnSpares(s: P.Procs)
    requires I.Inv(s) && P.SpawnDefined(s)
    ensures Spares(s, P.Spawn(s))
  {
    hide I.Inv;
    FreshPid(s);
    RunningSpares(s, P.Spawn(s));
  }

  lemma SleepSpares(s: P.Procs)
    requires I.Inv(s) && P.CanRun(s)
    ensures Spares(s, P.Sleep(s))
  {
    hide I.Inv;
    RunningSpares(s, P.Sleep(s));
  }

  lemma QueueCallSpares(s: State, e: Event)
    requires I.Inv(s.ps) && (e.MqSend? || e.MqReceive?) && CallDefined(s.ps, s.rs, e)
    ensures Spares(s.ps, Handle(s, e).ps)
  {
    hide I.Inv, P.BlockOnQueue, Spares, P.TimerRefused, P.Allocated;
    var target := R.Target(s.rs, s.ps.running.value, e.fd);
    if target.Some? && (if e.MqSend? then R.Full(s.rs, target.value) else R.Empty(s.rs, target.value)) {
      QueueBlockSpares(s.ps, if e.MqSend? then DSOS_MQ_FULL else DSOS_MQ_EMPTY);
    } else {
      RunningSpares(s.ps, Handle(s, e).ps);
    }
  }

  lemma HandleCarries(s: State, e: Event)
    requires KernelInv(s) && !e.Tick? && CallDefined(s.ps, s.rs, e)
    ensures Carries(s.ps, Handle(s, e).ps)
    ensures e.Exit? ==> Kept(Handle(s, e).ps, s.ps.running.value, s.ps.pcb[s.ps.running.value].args[0])
  {
    hide KernelInv, I.Inv, P.Exit, P.Wait, P.Sleep, P.Spawn, P.Schedule, P.BlockOnQueue, Carries, Spares, Kept;
    hide P.Buried;
    InvHalves(s);
    if e.Wait? {
      WaitCarries(s.ps);
    } else if e.Exit? {
      ExitCarries(s.ps);
    } else {
      HandleSpares(s, e);
      SparesCarries(s.ps, Handle(s, e).ps);
    }
  }

  lemma HandleSpares(s: State, e: Event)
    requires KernelInv(s) && !e.Tick? && !e.Wait? && !e.Exit? && CallDefined(s.ps, s.rs, e)
    ensures Spares(s.ps, Handle(s, e).ps)
  {
    hide KernelInv, I.Inv, P.Sleep, P.Spawn, P.Schedule, P.BlockOnQueue, Spares;
    InvHalves(s);
    if e.Preempt? {
      ScheduleSpares(s.ps);
    } else if e.Sleep? {
      SleepSpares(s.ps);
    } else if e.Spawn? || e.Fork? {
      SpawnSpares(s.ps);
    } else if e.MqSend? || e.MqReceive? {
      QueueCallSpares(s, e);
    } else {
      RunningSpares(s.ps, Handle(s, e).ps);
    }
  }

  lemma RecordedCarries(s: State, e: Event)
    requires KernelInv(s) && P.CanRun(s.ps) && !e.Tick?
    ensures Spares(s.ps, Recorded(s.ps, e))
  {
    hide I.Inv;
    RunningSpares(s.ps, Recorded(s.ps, e));
  }

  lemma TickSpares(s: P.Procs)
    requires I.Inv(s) && s.running.Some? && P.TickDefined(s)
    ensures Spares(s, P.Tick(s))
  {
    hide I.Inv, Spares, P.Schedule, P.ScheduleDefined;
    var u := s.(time := s.time + 1);
    ClockInv(s);
    ClockSpares(s, u);
    ScheduleSpares(u);
    SparesTwice(s, u, P.Schedule(u));
  }

  /** Every step keeps all exit values; an exit adds its own. */
  lemma StepCarries(s: State, e: Event)
    requires KernelInv(s) && Enabled(s, e)
    ensures Carries(s.ps, Step(s, e).ps)
    ensures e.Exit? ==> Kept(Step(s, e).ps, s.ps.running.value, e.value)
  {
    hide KernelInv, I.Inv, Carries, Spares, Kept, Handle, P.Tick;
    InvHalves(s);
    if e.Tick? {
      TickSpares(s.ps);
      SparesCarries(s.ps, P.Tick(s.ps));
    } else {
      RecordedInv(s, e);
      RecordedCarries(s, e);
      HandleCarries(s.(ps := Recorded(s.ps, e)), e);
      SparesThenCarries(s.ps, Recorded(s.ps, e), Step(s, e).ps);
    }
  }

  lemma ClockSpares(s: P.Procs, t: P.Procs)
    requires t == s.(time := t.time)
    ensures Spares(s, t)
  {
  }

  lemma SparesThenCarries(s: P.Procs, t: P.Procs, u: P.Procs)
    requires Spares(s, t) && Carries(t, u)
    ensures Carries(s, u)
  {
  }

  // ---------- whole runs ----------

  lemma {:induction false} KeptForever(run: seq<State>, es: seq<Event>, c: nat, v: int, k: nat)
    requires IsRun(run, es) && KernelInv(run[0]) && Kept(run[0].ps, c, v) && k <= |es|
    ensures Kept(run[k].ps, c, v)
  {
    hide KernelInv, Kept, Carries, Step;
    if k > 0 {
      KeptForever(run, es, c, v, k - 1);
      RunKeepsInv(run, es, k - 1);
      RunStep(run, es, k - 1);
      StepCarries(run[k - 1], es[k - 1]);
      CarriesKept(run[k - 1].ps, run[k].ps, c, v);
    }
  }

  /** The value of exit(v) is in the zombie or delivered ever after, and is never delivered twice. */
  lemma ExitValueSurvives(run: seq<State>, es: seq<Event>, k: nat)
    requires IsRun(run, es) && KernelInv(run[0]) && es != [] && es[0].Exit? && 1 <= k <= |es|
    ensures run[0].ps.running.Some? && Kept(run[k].ps, run[0].ps.running.value, es[0].value)
    ensures NoDup(I.Children(run[k].ps.deliveries))
  {
    hide I.Inv, Kept, Carries, Step;
    RunTail(run, es);
    StepCarries(run[0], es[0]);
    StepKeepsInv(run[0], es[0]);
    KeptForever(run[1..], es[1..], run[0].ps.running.value, es[0].value, k - 1);
    RunKeepsInv(run, es, k);
    DeliveredOnce(run[k].ps);
  }

  lemma DeliveredOnce(s: P.Procs)
    requires I.Inv(s)
    ensures NoDup(I.Children(s.deliveries))
    ensures forall p: nat | p < s.lastPid :: p in s.pcb <==> p !in I.Children(s.deliveries)
  {
    forall p: nat | p < s.lastPid ensures p in s.pcb <==> p !in I.Children(s.deliveries) {
      assert I.Traced(s, p);
    }
  }

  // ---------- who delivers what to whom ----------

  /** From `s` to `t` one value was delivered, of a process that was listed by the one that got it. */
  ghost predicate Delivered(s: P.Procs, t: P.Procs, d: P.Delivery) {
    && t.deliveries == s.deliveries + [d]
    && d.parent in s.pcb && d.child in s.pcb && d.child in s.pcb[d.parent].children && d.child !in t.pcb
    && (s.pcb[d.child].parent == Some(d.parent) || (d.parent == s.init && s.init in s.pcb && I.Orphan(s, d.child)))
  }

  /** wait delivers a child's value to its parent, or an orphan's to init. */
  lemma DeliveredToLister(s: P.Procs, k: nat)
    requires I.Inv(s) && P.CanRun(s) && k < |s.pcb[s.running.value].children|
    ensures var c, me := s.pcb[s.running.value].children[k], s.running.value;
      && c in s.pcb
      && Delivered(s, P.Reap(s, k), P.Delivery(me, c, s.pcb[me].args[1], s.pcb[c].returnValue, false))
  {
    hide I.Placed, I.Clocked, I.Accounts, I.Named;
    assert I.ListedBy(s, s.pcb[s.running.value].children[k], s.running.value);
  }

  /** An exit that hands over delivers to the parent that waits for it. */
  lemma HandedToParent(s: P.Procs)
    requires I.Inv(s) && P.ExitDefined(s) && FK.HandsOver(s)
    ensures P.Heir(s).Some?
    ensures var me, p := s.running.value, P.Heir(s).value;
      Delivered(s, P.Exit(s), P.Delivery(p, me, s.pcb[p].args[1], s.pcb[me].args[0], true))
  {
    hide I.Placed, I.Clocked, I.Accounts, I.Named, P.Buried;
    var me := s.running.value;
    FK.ExitCases(s);
    FK.BuriedFields(s, me);
    FK.BuriedFields(s, P.Heir(s).value);
    assert I.ListedBy(s, me, P.Heir(s).value);
  }

  /** What `e` may deliver: wait the value of a zombie child to the caller, exit the caller's to its parent. */
  ghost predicate MayDeliver(s: P.Procs, e: Event, d: P.Delivery) {
    || (e.Wait? && s.running == Some(d.parent) && d.child in s.pcb && !d.byExit
        && s.pcb[d.child].status == P.Zombie && d.value == s.pcb[d.child].returnValue && d.address == e.result)
    || (e.Exit? && s.running == Some(d.child) && d.value == e.value && d.byExit)
  }

  /** No delivery, or one that `e` may make. */
  ghost predicate DeliversAtMostOne(s: P.Procs, e: Event, t: P.Procs) {
    || t.deliveries == s.deliveries
    || (|t.deliveries| == |s.deliveries| + 1
        && Delivered(s, t, t.deliveries[|s.deliveries|]) && MayDeliver(s, e, t.deliveries[|s.deliveries|]))
  }

  lemma WaitDelivers(s: P.Procs, e: Event)
    requires I.Inv(s) && P.WaitDefined(s) && e.Wait? && s.pcb[s.running.value].args[1] == e.result
    ensures DeliversAtMostOne(s, e, P.Wait(s))
  {
    hide I.Inv, P.Reap, Delivered;
    var cs := s.pcb[s.running.value].children;
    if cs != [] && s.pcb[cs[P.AwaitedIndex(s)]].status == P.Zombie {
      DeliveredToLister(s, P.AwaitedIndex(s));
      LastDelivery(s, P.Wait(s));
    }
  }

  lemma LastDelivery(s: P.Procs, t: P.Procs)
    ensures forall d :: Delivered(s, t, d) ==> |t.deliveries| == |s.deliveries| + 1 && t.deliveries[|s.deliveries|] == d
  {
  }

  lemma ExitDelivers(s: P.Procs, e: Event)
    requires I.Inv(s) && P.ExitDefined(s) && e.Exit? && s.pcb[s.running.value].args[0] == e.value
    ensures DeliversAtMostOne(s, e, P.Exit(s))
  {
    hide I.Inv, P.Buried, Delivered, FK.HandsOver, P.HandOver;
    FK.ExitCases(s);
    if FK.HandsOver(s) {
      HandedToParent(s);
      LastDelivery(s, P.Exit(s));
    }
  }

  lemma HandleDelivers(s: State, e: Event)
    requires KernelInv(s) && !e.Tick? && CallDefined(s.ps, s.rs, e)
    requires Arguments(e) <= s.ps.pcb[s.ps.running.value].args
    ensures DeliversAtMostOne(s.ps, e, Handle(s, e).ps)
  {
    hide KernelInv, I.Inv, P.Exit, P.Wait, P.Sleep, P.Spawn, P.Schedule, P.BlockOnQueue, DeliversAtMostOne;
    InvHalves(s);
    assert Arguments(e) != [] ==>
      s.ps.pcb[s.ps.running.value].args[|Arguments(e)| - 1] == Arguments(e)[|Arguments(e)| - 1];
    if e.Wait? {
      WaitDelivers(s.ps, e);
    } else if e.Exit? {
      ExitDelivers(s.ps, e);
    } else {
      HandleSpares(s, e);
      Undelivered(s.ps, e, Handle(s, e).ps);
    }
  }

  lemma Undelivered(s: P.Procs, e: Event, t: P.Procs)
    requires t.deliveries == s.deliveries
    ensures DeliversAtMostOne(s, e, t)
  {
  }

  /** Every delivery is made by a wait or an exit, to the process that lists the child, with the child's value. */
  lemma StepDelivers(s: State, e: Event)
    requires KernelInv(s) && Enabled(s, e)
    ensures DeliversAtMostOne(s.ps, e, Step(s, e).ps)
  {
    hide KernelInv, I.Inv, Handle, P.Tick, DeliversAtMostOne;
    InvHalves(s);
    if e.Tick? {
      TickSpares(s.ps);
      Undelivered(s.ps, e, P.Tick(s.ps));
    } else {
      RecordedInv(s, e);
      HandleDelivers(s.(ps := Recorded(s.ps, e)), e);
      RecordingDelivers(s.ps, Recorded(s.ps, e), e, Step(s, e).ps);
    }
  }

  lemma RecordingDelivers(s: P.Procs, r: P.Procs, e: Event, t: P.Procs)
    requires P.CanRun(s) && !e.Tick? && r == Recorded(s, e) && DeliversAtMostOne(r, e, t)
    ensures DeliversAtMostOne(s, e, t)
  {
    assert r.pcb.Keys == s.pcb.Keys;
    if t.deliveries != s.deliveries {
      assert Delivered(r, t, t.deliveries[|s.deliveries|]);
    }
  }

  // ---------- how many exits can hand over ----------

  /** Each hand-over costs a PCBPtr block: in no run from boot are there more than 1024 of them, and once there are
      that many no process is left but one and no spawn can follow. */
  lemma HandOversBounded(run: seq<State>, es: seq<Event>, k: nat)
    requires IsRun(run, es) && run[0] == Booted() && k <= |es|
    ensures var s := run[k].ps;
      && I.HandOvers(s.deliveries) + s.ptrFree + |s.pcb| == MAX_NUM_PROCESSES + 1
      && I.HandOvers(s.deliveries) <= MAX_NUM_PROCESSES
      && (I.HandOvers(s.deliveries) == MAX_NUM_PROCESSES ==> |s.pcb| == 1 && !P.SpawnDefined(s))
  {
    hide I.Placed, I.Clocked, I.Named;
    BootedInv();
    RunKeepsInv(run, es, k);
    assert run[k].ps.init in run[k].ps.pcb;
    assert |run[k].ps.pcb| > 0;
  }
}
