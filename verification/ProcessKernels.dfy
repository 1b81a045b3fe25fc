/** The process half of the kernel as it runs: global variables, and the linked lists and blocks of a `ProcessStore`,
    changed in place. Each routine is proved to do to the abstract state what its specification in `Processes` says. */
module ProcessKernels {
  import opened Constants
  import opened Sequences
  import opened LinkedLists
  import opened ProcessTables
  import opened ProcessStores
  import opened KernelSteps
  import opened KernelInvariant
  import P = Processes
  import I = ProcessInvariant
  import SK = ScheduleKeeps
  import FK = FamilyKeeps

  class ProcessKernel {
    var time: int
    var lastPid: nat
    var init: nat
    var running: Option<nat>
    const store: ProcessStore
    ghost var deliveries: seq<P.Delivery>

    /** disastrOS_start: empty lists, full pools, and the PCB of init running. */
    constructor (layout: ProcessLayout)
      requires layout.Sound()
      ensures Sound() && View() == BootedProcs() && fresh(store) && fresh(store.Repr)
    {
      hide ProcessStore.Valid, ProcessStore.View;
      time, lastPid, init, deliveries := 0, 0, 0, [];
      store := new ProcessStore(layout);
      new;
      UptoFacts(MAX_NUM_PROCESSES);
      store.Alloc(lastPid, FieldsOf(P.FreshPcb.(status := P.Running)));
      running := Some(lastPid);
      lastPid := lastPid + 1;
      assert View().pcb == BootedProcs().pcb;
    }

    /** The heap is in order, and the global variables are not on it. */
    ghost predicate Sound()
      reads store, store.Repr
    {
      store.Valid() && this !in store.Repr
    }

    ghost function Footprint(): set<object>
      reads store
    {
      {this, store} + store.Repr
    }

    /** The state as `Processes` sees it. */
    ghost function View(): P.Procs
      reads this, store, store.Repr
      requires Sound()
    {
      var heap := store.View();
      P.Procs(time, lastPid, init, running, heap.ready, heap.waiting, heap.zombies, heap.timers, heap.pcb,
              heap.home, heap.tenant, heap.pcbPool, heap.timerFree, heap.ptrFree, deliveries)
    }

    ghost predicate Valid()
      reads this, store, store.Repr
    {
      Sound() && I.Inv(View())
    }

    /** The process that made the call. */
    method Caller() returns (p: nat)
      requires Sound() && View().running.Some?
      ensures View().running == Some(p)
    {
      return running.value;
    }

    /** The pid of the next process. */
    method NextPid() returns (p: nat)
      requires Sound()
      ensures p == old(View()).lastPid
    {
      return lastPid;
    }

    method GiveCpu(p: nat)
      requires Sound()
      modifies this`running
      ensures Sound() && store.Repr == old(store.Repr) && View() == old(View()).(running := Some(p))
    {
      hide ProcessStore.Valid, ProcessStore.View;
      running := Some(p);
    }

    /** Reads the PCB of `p`. */
    method Load(p: nat) returns (f: Fields)
      requires Sound() && p in View().pcb
      ensures f == old(FieldsOf(View().pcb[p]))
    {
      hide ProcessStore.Valid, ProcessStore.View;
      f := store.Load(p);
    }

    /** Overwrites the PCB of `p`. */
    method Write(p: nat, f: Fields)
      requires Sound() && p in View().pcb
      modifies store.Repr
      ensures Sound() && store.Repr == old(store.Repr)
      ensures p in old(View()).pcb
      ensures View() == old(View()).(pcb := WithFields(old(View()).pcb, p, f))
    {
      hide ProcessStore.Valid, ProcessStore.View;
      store.Store(p, f);
    }

    // ---------- list operations on the global lists ----------

    method LeaveWaiting(p: nat)
      requires Sound() && NoDup(View().waiting) && p in View().waiting
      modifies store.Repr
      ensures Sound() && store.Repr == old(store.Repr)
      ensures var v := old(View()); View() == v.(waiting := Minus(v.waiting, [p]))
    {
      hide ProcessStore.Valid, ProcessStore.View;
      store.Heads();
      RemovedAtIsMinus(View().waiting, p);
      store.Detach(store.table.waiting, p);
    }

    method LeaveZombies(p: nat)
      requires Sound() && NoDup(View().zombies) && p in View().zombies
      modifies store.Repr
      ensures Sound() && store.Repr == old(store.Repr)
      ensures var v := old(View()); View() == v.(zombies := Minus(v.zombies, [p]))
    {
      hide ProcessStore.Valid, ProcessStore.View;
      store.Heads();
      RemovedAtIsMinus(View().zombies, p);
      store.Detach(store.table.zombies, p);
    }

    method JoinWaiting(p: nat)
      requires Sound() && p in View().pcb && Unlisted(View(), p)
      modifies store.Repr
      ensures Sound() && store.Repr == old(store.Repr)
      ensures View() == old(View().(waiting := View().waiting + [p]))
    {
      hide ProcessStore.Valid, ProcessStore.View;
      store.Heads();
      store.InsertLast(store.table.waiting, p);
    }

    method JoinZombies(p: nat)
      requires Sound() && p in View().pcb && Unlisted(View(), p)
      modifies store.Repr
      ensures Sound() && store.Repr == old(store.Repr)
      ensures View() == old(View().(zombies := View().zombies + [p]))
    {
      hide ProcessStore.Valid, ProcessStore.View;
      store.Heads();
      store.InsertLast(store.table.zombies, p);
    }

    method JoinReady(p: nat)
      requires Sound() && p in View().pcb && Unlisted(View(), p)
      modifies store.Repr
      ensures Sound() && store.Repr == old(store.Repr)
      ensures View() == old(View().(ready := View().ready + [p]))
    {
      hide ProcessStore.Valid, ProcessStore.View;
      store.Heads();
      store.InsertLast(store.table.ready, p);
    }

    method InsertReady(prev: Option<nat>, p: nat)
      requires Sound() && p in View().pcb && Unlisted(View(), p)
      requires prev.Some? ==> prev.value in View().ready
      modifies store.Repr
      ensures Sound() && store.Repr == old(store.Repr)
      ensures View() == old(View().(ready := InsertedPid(View().ready, prev, p)))
    {
      hide ProcessStore.Valid, ProcessStore.View;
      store.Heads();
      store.Insert(store.table.ready, prev, p);
    }

    /** List_detach(&ready_list, ready_list.first). */
    method TakeFirstReady() returns (p: nat)
      requires Sound() && View().ready != []
      modifies store.Repr
      ensures Sound() && store.Repr == old(store.Repr)
      ensures p == old(View().ready[0]) && View() == old(View().(ready := View().ready[1..]))
    {
      hide ProcessStore.Valid, ProcessStore.View, RemovedAt, IndexOf;
      store.Heads();
      var first := store.First(store.table.ready);
      p := first.value;
      FrontLeaves(View().ready);
      store.Detach(store.table.ready, p);
    }

    method ReadyEmpty() returns (b: bool)
      requires Sound()
      ensures b == old(View().ready == [])
    {
      hide ProcessStore.Valid, ProcessStore.View;
      store.Heads();
      var first := store.First(store.table.ready);
      return first.None?;
    }

    // ---------- disastrOS_syscall ----------

    method Return(value: int)
      requires Sound() && P.CanRun(View())
      modifies store.Repr
      ensures Sound() && store.Repr == old(store.Repr) && View() == old(P.Return(View(), value))
    {
      hide ProcessStore.Valid, ProcessStore.View;
      assert running.value in View().pcb;
      var f := Load(running.value);
      Write(running.value, f.(retvalue := value));
    }

    method RecordCall(num: int, argv: seq<int>)
      requires Sound() && P.CanRun(View()) && |argv| <= MAX_SYSCALLS_ARGS
      modifies store.Repr
      ensures Sound() && store.Repr == old(store.Repr) && View() == old(P.RecordCall(View(), num, argv))
    {
      hide ProcessStore.Valid, ProcessStore.View;
      ghost var v0, me := View(), running.value;
      StoreArguments(argv);
      StoreNumber(num);
      WithPcbTwice(v0, me, v0.pcb[me].(args := Stored(argv, v0.pcb[me].args, |argv|)), View().pcb[me]);
      assert argv[..|argv|] == argv;
    }

    /** The variadic arguments are stored one register after the other. */
    method StoreArguments(argv: seq<int>)
      requires Sound() && running.Some? && running.value in View().pcb && |argv| <= MAX_SYSCALLS_ARGS
      modifies store.Repr
      ensures Sound() && store.Repr == old(store.Repr) && running.value in old(View()).pcb
      ensures var my := old(View()).pcb[running.value];
        View() == WithPcb(old(View()), running.value, my.(args := Stored(argv, my.args, |argv|)))
    {
      hide ProcessStore.Valid, ProcessStore.View, Stored, WithPcb;
      ghost var v0, my := View(), View().pcb[running.value];
      WithPcbSame(v0, running.value);
      StoredNothing(argv, my.args);
      for i := 0 to |argv|
        invariant Sound() && store.Repr == old(store.Repr)
        invariant WithPcb(v0, running.value, my.(args := Stored(argv, my.args, i))) == View()
      {
        WithPcbHas(v0, running.value, my.(args := Stored(argv, my.args, i)));
        StoreArgument(i, argv[i]);
        StoredOneMore(argv, my.args, i);
        WithPcbTwice(v0, running.value, my.(args := Stored(argv, my.args, i)),
          my.(args := Stored(argv, my.args, i + 1)));
      }
    }

    method StoreArgument(i: nat, value: int)
      requires Sound() && running.Some? && running.value in View().pcb && i < MAX_SYSCALLS_ARGS
      modifies store.Repr
      ensures Sound() && store.Repr == old(store.Repr) && running == old(running) && running.Some?
      ensures var v, me := old(View()), old(running.value);
        me in v.pcb && View() == WithPcb(v, me, WithArgument(v.pcb[me], i, value))
    {
      hide ProcessStore.Valid, ProcessStore.View;
      var r := Load(running.value);
      Write(running.value, r.(args := r.args[i := value]));
    }

    /** internal_mqReceive hands over the message through the caller's second argument. */
    method TakeMessage(msg: int)
      requires Sound() && P.CanRun(View())
      modifies store.Repr
      ensures Sound() && store.Repr == old(store.Repr) && View() == old(Handed(View(), msg)) && P.CanRun(View())
    {
      hide ProcessStore.Valid, ProcessStore.View;
      StoreArgument(1, msg);
    }

    method StoreNumber(num: int)
      requires Sound() && running.Some? && running.value in View().pcb
      modifies store.Repr
      ensures Sound() && store.Repr == old(store.Repr) && running.value in old(View()).pcb
      ensures View() == WithPcb(old(View()), running.value, old(View()).pcb[running.value].(syscallNum := num))
    {
      hide ProcessStore.Valid, ProcessStore.View;
      var f := Load(running.value);
      Write(running.value, f.(syscallNum := num));
    }

    // ---------- internal_schedule ----------

    /** One turn of the wake loop: the process of the first timer moves behind `previous`. */
    method WakeNext(p: nat, previous: Option<nat>)
      requires Sound() && CanWake(View()) && p == View().timers[0].pid
      requires previous.Some? ==> previous.value in View().ready
      modifies this, store.Repr
      ensures Sound() && store.Repr == old(store.Repr)
      ensures View() == old(Woken(View(), previous))
    {
      hide ProcessStore.Valid, ProcessStore.View, Minus, NoDup, InsertedPid, View;
      LeaveWaiting(p);
      MarkReady(p);
      InsertReady(previous, p);
      DropFirstTimer();
    }

    method MarkReady(p: nat)
      requires Sound() && p in View().pcb
      modifies store.Repr
      ensures Sound() && store.Repr == old(store.Repr) && p in old(View()).pcb
      ensures View() == old(View().(pcb := View().pcb[p := View().pcb[p].(status := P.Ready, hasTimer := false)]))
    {
      hide ProcessStore.Valid, ProcessStore.View;
      var f := Load(p);
      Write(p, f.(status := P.Ready, hasTimer := false));
    }

    /** TimerList_removeCurrent. */
    method DropFirstTimer()
      requires Sound() && View().timers != []
      modifies store.Repr
      ensures Sound() && store.Repr == old(store.Repr)
      ensures View() == old(View().(timers := View().timers[1..], timerFree := View().timerFree + 1))
    {
      hide ProcessStore.Valid, ProcessStore.View;
      store.RemoveCurrent();
    }

    /** TimerList_current. */
    method Due() returns (pid: Option<nat>)
      requires Sound()
      ensures pid == old(DueFirst(View()))
    {
      hide ProcessStore.Valid, ProcessStore.View;
      pid := store.Due(time);
    }

    /** The wake loop of internal_schedule. */
    method WakeDue()
      requires Sound() && I.Placed(View()) && I.Clocked(View())
      modifies this, store.Repr
      ensures Sound() && store.Repr == old(store.Repr)
      ensures View() == old(P.Wake(View()))
    {
      hide ProcessStore.Valid, View, ProcessStore.View, P.WakeFirst, I.Placed, I.Clocked, Woken, CanWake;
      ghost var s, k := View(), 0;
      WokenNone(s);
      var previous: Option<nat> := None;
      var due := Due();
      while due.Some?
        invariant Sound() && store.Repr == old(store.Repr)
        invariant k <= |s.timers| && View() == P.WakeFirst(s, k) && due == DueFirst(View())
        invariant View().timers == s.timers[k..] && View().time == s.time
        invariant P.DueCount(s.timers, s.time) == k + P.DueCount(s.timers[k..], s.time)
        invariant previous == Last(s, k)
        decreases |s.timers| - k
      {
        WokenMore(s, k);
        WakeNext(due.value, previous);
        TimersAfter(s, k + 1);
        previous := due;
        k := k + 1;
        due := Due();
      }
    }

    method Rotate()
      requires Sound() && P.CanRun(View()) && Unlisted(View(), View().running.value)
      modifies this, store.Repr
      ensures Sound() && store.Repr == old(store.Repr)
      ensures View() == old(P.Rotate(View()))
    {
      hide ProcessStore.Valid, ProcessStore.View, View;
      var none := ReadyEmpty();
      if !none {
        assert View().ready[0] in View().ready;
        var next := TakeFirstReady();
        var prev := Caller();
        SetStatus(prev, P.Ready);
        JoinReady(prev);
        SetStatus(next, P.Running);
        GiveCpu(next);
      }
    }

    /** internal_schedule. */
    method Schedule()
      requires Valid() && View().running.Some? && P.ScheduleDefined(View())
      modifies this, store.Repr
      ensures Valid() && store.Repr == old(store.Repr)
      ensures View() == old(P.Schedule(View()))
    {
      hide ProcessStore.Valid, ProcessStore.View, I.Inv, P.Wake, P.Rotate;
      SK.ScheduleKeepsInv(View());
      ScheduleParts(View());
      WakeDue();
      Rotate();
    }

    /** timerInterrupt. */
    method Tick()
      requires Sound() && I.Inv(View()) && View().running.Some? && P.TickDefined(View())
      modifies this, store.Repr
      ensures Valid() && store.Repr == old(store.Repr)
      ensures View() == old(P.Tick(View()))
    {
      hide ProcessStore.Valid, ProcessStore.View, I.Inv, P.Schedule, P.ScheduleDefined;
      ClockInv(View());
      time := time + 1;
      Schedule();
    }

    // ---------- internal_sleep and blocking on a queue ----------

    /** TimerList_add: null when the pool is empty. */
    method AddTimer(wake: int, pid: nat) returns (added: bool)
      requires Sound()
      modifies store.Repr
      ensures Sound() && store.Repr == old(store.Repr) && added == (old(View()).timerFree > 0)
      ensures !added ==> View() == old(View())
      ensures added ==>
        View() == old(View().(timers := P.AddTimer(View().timers, wake, pid), timerFree := View().timerFree - 1))
    {
      hide ProcessStore.Valid, ProcessStore.View, P.AddTimer;
      added := store.AddTimer(wake, pid);
    }

    /** The caller, already waiting, gives the CPU to the first ready process, if there is one. */
    method PickNext()
      requires Sound()
      modifies this, store.Repr
      ensures Sound() && store.Repr == old(store.Repr)
      ensures View() == old(P.PickNext(View()))
    {
      hide ProcessStore.Valid, ProcessStore.View;
      var none := ReadyEmpty();
      if none {
        running := None;
      } else {
        var next := TakeFirstReady();
        running := Some(next);
      }
    }

    /** status=Waiting, then the end of the waiting list. */
    method Park()
      requires Sound() && running.Some? && running.value in View().pcb && Unlisted(View(), running.value)
      modifies store.Repr
      ensures Sound() && store.Repr == old(store.Repr)
      ensures running.value in old(View().pcb) && View() == old(View().(waiting := View().waiting + [running.value],
                                 pcb := P.SetStatus(View().pcb, running.value, P.Waiting)))
    {
      hide ProcessStore.Valid, ProcessStore.View;
      var f := Load(running.value);
      Write(running.value, f.(status := P.Waiting));
      JoinWaiting(running.value);
    }

    method Sleep()
      requires Sound() && P.CanRun(View()) && Unlisted(View(), View().running.value)
      modifies this, store.Repr
      ensures Sound() && store.Repr == old(store.Repr)
      ensures View() == old(P.Sleep(View()))
    {
      hide ProcessStore.Valid, ProcessStore.View, P.AddTimer;
      assert running.value in View().pcb;
      var my := Load(running.value);
      if my.hasTimer {
        Return(DSOS_ESLEEP);
        return;
      }
      var added := AddTimer(time + my.args[0], running.value);
      if !added {
        Return(DSOS_ESLEEP);
        return;
      }
      Park();
      PickNext();
    }

    /** The blocking end of internal_mqSend and internal_mqReceive. The return code is written to whoever
        runs after the switch. */
    method BlockOnQueue(code: int)
      requires Sound() && P.CanRun(View()) && Unlisted(View(), View().running.value)
      requires !P.TimerRefused(View()) ==> View().ready != []
      modifies this, store.Repr
      ensures Sound() && store.Repr == old(store.Repr)
      ensures View() == old(P.BlockOnQueue(View(), code))
    {
      hide ProcessStore.Valid, ProcessStore.View, P.AddTimer;
      assert running.value in View().pcb;
      assert View().ready != [] ==> View().ready[0] in View().ready;
      var my := Load(running.value);
      if my.hasTimer {
        Return(DSOS_ESLEEP);
        return;
      }
      var added := AddTimer(time + QUEUE_SLEEP, running.value);
      if !added {
        Return(DSOS_ESLEEP);
        return;
      }
      Park();
      PickNext();
      var f := Load(running.value);
      Write(running.value, f.(retvalue := code));
    }

    // ---------- internal_spawn and internal_fork ----------

    method Spawn()
      requires Sound() && P.SpawnDefined(View()) && FK.Fresh(View()) && Unlisted(View(), View().lastPid)
      modifies this, store.Repr
      ensures Sound() && fresh(store.Repr - old(store.Repr))
      ensures View() == old(P.Spawn(View()))
    {
      hide ProcessStore.Valid, ProcessStore.View, WithPcb, View;
      ghost var m := View().pcb;
      var me := Caller();
      var child := NewReady(Some(me));
      AddChild(me, child);
      JoinReady(child);
      SetRetvalue(me, child);
      SpawnWrites(m, me, child, P.FreshPcb.(parent := Some(me)));
    }

    /** A new PCB, made ready and given its parent. */
    method NewReady(parent: Option<nat>) returns (child: nat)
      requires Sound() && FK.Fresh(View()) && View().pcbPool != []
      modifies this, store.Repr
      ensures Sound() && fresh(store.Repr - old(store.Repr)) && child == old(View().lastPid)
      ensures View() == old(Born(View(), P.FreshPcb.(parent := parent)))
    {
      hide ProcessStore.Valid, ProcessStore.View;
      child := AllocPcb();
      var f := Load(child);
      Write(child, f.(status := P.Ready));
      f := Load(child);
      Write(child, f.(parent := parent));
    }

    method SetRetvalue(p: nat, value: int)
      requires Sound() && p in View().pcb
      modifies store.Repr
      ensures Sound() && store.Repr == old(store.Repr) && p in old(View()).pcb
      ensures View() == old(View().(pcb := View().pcb[p := View().pcb[p].(retvalue := value)]))
    {
      hide ProcessStore.Valid, ProcessStore.View;
      var f := Load(p);
      Write(p, f.(retvalue := value));
    }

    /** PCB_alloc: the next pid, every field initialised, no list. */
    method AllocPcb() returns (child: nat)
      requires Sound() && FK.Fresh(View()) && View().pcbPool != []
      modifies this, store.Repr
      ensures Sound() && fresh(store.Repr - old(store.Repr)) && child == old(View()).lastPid
      ensures View() == old(Born(View(), P.FreshPcb.(status := P.Invalid)))
    {
      hide ProcessStore.Valid, ProcessStore.View;
      child := lastPid;
      store.Alloc(child, FieldsOf(P.FreshPcb.(status := P.Invalid)));
      lastPid := lastPid + 1;
    }

    /** PCBPtr_alloc, and List_insert at the end of the children of `p`. */
    method AddChild(p: nat, child: nat)
      requires Sound() && p in View().pcb && View().ptrFree > 0
      modifies store.Repr
      ensures Sound() && store.Repr == old(store.Repr) && p in old(View()).pcb
      ensures View() == old(View()).(ptrFree := old(View()).ptrFree - 1,
        pcb := WithKids(old(View()).pcb, p, old(View()).pcb[p].children + [child]))
    {
      hide ProcessStore.Valid, ProcessStore.View, WithKids;
      store.AddChild(p, child);
    }

    // ---------- internal_wait ----------

    /** A zombie child is taken off both lists, its value handed over and its PCB freed. */
    method Reap(me: nat, ptr: Item<nat>, ghost k: nat) returns (c: nat)
      requires Sound() && I.Inv(View()) && P.CanRun(View()) && View().running == Some(me)
      requires k < |View().pcb[me].children| && View().pcb[View().pcb[me].children[k]].status == P.Zombie
      requires store.family.At(me, ptr, k) && ptr.value == View().pcb[me].children[k]
      modifies this, store.Repr
      ensures Sound() && store.Repr == old(store.Repr) && c == old(View().pcb[me].children[k])
      ensures View() == old(P.Reap(View(), k))
    {
      hide ProcessStore.Valid, ProcessStore.View, View, I.Inv, RemovedAt, Minus, P.Reap, ChildTaken;
      ghost var v := View();
      ZombieChild(v, k);
      ReapAssembled(v, k);
      c := ptr.value;
      TakeChild(me, ptr, k, c);
      Deliver(me, c, false);
      Free(c);
    }

    /** List_detach of the pointer and PCBPtr_free, then List_detach of that child from the zombies. */
    method TakeChild(p: nat, ptr: Item<nat>, ghost k: nat, c: nat)
      requires Sound() && p in View().pcb && k < |View().pcb[p].children| && c == View().pcb[p].children[k]
      requires store.family.At(p, ptr, k) && NoDup(View().zombies) && c in View().zombies
      modifies store.Repr
      ensures Sound() && store.Repr == old(store.Repr) && p in old(View()).pcb
      ensures View() == old(ChildTaken(View(), p, k))
    {
      hide ProcessStore.Valid, ProcessStore.View, RemovedAt, Minus, NoDup;
      RemoveChild(p, ptr, k);
      LeaveZombies(c);
    }

    method RemoveChild(p: nat, ptr: Item<nat>, ghost k: nat)
      requires Sound() && p in View().pcb && store.family.At(p, ptr, k)
      modifies store.Repr
      ensures Sound() && store.Repr == old(store.Repr) && p in old(View()).pcb && k < |old(View()).pcb[p].children|
      ensures View() == old(View()).(ptrFree := old(View()).ptrFree + 1,
        pcb := WithKids(old(View()).pcb, p, RemovedAt(old(View()).pcb[p].children, k)))
    {
      hide ProcessStore.Valid, ProcessStore.View, WithKids, RemovedAt;
      store.RemoveChild(p, ptr, k);
    }

    /** The child's pid is the parent's return value, and its exit value is stored at the parent's second argument. */
    method Deliver(parent: nat, c: nat, byExit: bool)
      requires Sound() && parent in View().pcb && c in View().pcb && parent != c
      modifies this`deliveries, store.Repr
      ensures Sound() && store.Repr == old(store.Repr)
      ensures View() == old(View().(pcb := View().pcb[parent := View().pcb[parent].(retvalue := c)],
        deliveries := View().deliveries +
          [P.Delivery(parent, c, View().pcb[parent].args[1], View().pcb[c].returnValue, byExit)]))
    {
      hide ProcessStore.Valid, ProcessStore.View;
      var up, dead := Both(parent, c);
      SetRetvalue(parent, c);
      deliveries := deliveries + [P.Delivery(parent, c, up.args[1], dead.returnValue, byExit)];
    }

    method Both(p: nat, q: nat) returns (f: Fields, g: Fields)
      requires Sound() && p in View().pcb && q in View().pcb
      ensures f == old(FieldsOf(View().pcb[p])) && g == old(FieldsOf(View().pcb[q]))
    {
      hide Sound, View, ProcessStore.View;
      f := Load(p);
      g := Load(q);
    }

    /** PCB_free. */
    method Free(p: nat)
      requires Sound() && p in View().pcb && Unlisted(View(), p)
      modifies this, store.Repr
      ensures Sound() && store.Repr == old(store.Repr)
      ensures p in old(View()).home
      ensures View() == old(View()).(pcb := old(View()).pcb - {p}, pcbPool := P.Vacated(old(View()), p))
    {
      hide ProcessStore.Valid, ProcessStore.View;
      store.Release(p);
    }

    /** internal_wait. Names the child it reaped, if any: its descriptors stay open. */
    method Wait() returns (reaped: Option<nat>)
      requires Sound() && I.Inv(View()) && P.WaitDefined(View())
      modifies this, store.Repr
      ensures Sound() && store.Repr == old(store.Repr)
      ensures View() == old(P.Wait(View())) && reaped == old(Reaped(View()))
    {
      hide ProcessStore.Valid, ProcessStore.View, I.Inv, P.Reap;
      var me := running.value;
      var none := NoChildren(me);
      if none {
        Return(DSOS_EWAIT);
        return None;
      }
      var awaited, ptr, k := ScanChildren(me);
      if awaited.status == P.Zombie {
        var c := Reap(me, ptr, k);
        return Some(c);
      }
      assert Unlisted(View(), me) by { RunnerUnlisted(View()); }
      Park();
      PickNext();
      return None;
    }

    method NoChildren(p: nat) returns (b: bool)
      requires Sound() && p in View().pcb
      ensures b == old(View().pcb[p].children == [])
    {
      hide ProcessStore.Valid, ProcessStore.View;
      b := store.NoChildren(p);
    }

    /** The scan for the child that the caller waits for, and a look at its PCB. */
    method ScanChildren(me: nat) returns (awaited: Fields, ptr: Item<nat>, ghost k: nat)
      requires Sound() && P.CanRun(View()) && View().running == Some(me) && View().pcb[me].children != []
      ensures k == old(P.AwaitedIndex(View())) && store.family.At(me, ptr, k)
      ensures ptr.value == old(View().pcb[me].children)[k] && ptr.value in old(View()).pcb
      ensures awaited == FieldsOf(old(View()).pcb[ptr.value])
    {
      hide ProcessStore.Valid, ProcessStore.View, P.ScanIndex;
      var my := store.Load(me);
      ptr, k := store.ScanChildren(me, my.args[0]);
      awaited := store.Load(ptr.value);
    }

    // ---------- internal_exit ----------

    /** One turn of the reparenting loop: the first child moves to the end of init's and gets SIGHUP. */
    method MoveChild(me: nat)
      requires Sound() && me in View().pcb && init in View().pcb && me != init
      requires View().pcb[me].children != [] && View().pcb[me].children[0] in View().pcb
      modifies store.Repr
      ensures Sound() && store.Repr == old(store.Repr)
      ensures View() == old(View().(pcb := ChildMoved(View().pcb, me, init)))
    {
      hide ProcessStore.Valid, ProcessStore.View;
      var c := store.MoveChild(me, init);
      Signal(c, P.SIGHUP);
    }

    method MoveChildren(me: nat)
      requires Sound() && CanReparent(View().pcb, me, init)
      modifies store.Repr
      ensures Sound() && store.Repr == old(store.Repr)
      ensures View() == old(View().(pcb := P.Reparent(View().pcb, me, init)))
      ensures View().pcb.Keys == old(View()).pcb.Keys
    {
      hide ProcessStore.Valid, ProcessStore.View, CanReparent, MovedSome, ChildMoved;
      ghost var v, m, k := View(), View().pcb, 0;
      MovedNone(m, me, init);
      MovedAll(m, me, init);
      var none := NoChildren(me);
      while !none
        invariant Sound() && store.Repr == old(store.Repr) && me in m && k <= |m[me].children|
        invariant View() == v.(pcb := MovedSome(m, me, init, k)) && me in View().pcb
        invariant View().pcb[me].children == m[me].children[k..] && none == (View().pcb[me].children == [])
        decreases |m[me].children| - k
      {
        MovedMore(m, me, init, k);
        MoveChild(me);
        k := k + 1;
        none := NoChildren(me);
      }
    }

    /** The process becomes a zombie without children, and whoever its parent pointer leads to gets SIGCHLD. */
    method Bury(me: nat) returns (heir: Option<nat>)
      requires Sound() && P.ExitDefined(View()) && View().running == Some(me)
      requires CanReparent(View().pcb, me, init) && Unlisted(View(), me) && ParentHoused(View())
      modifies store.Repr
      ensures Sound() && store.Repr == old(store.Repr) && heir == old(P.Heir(View()))
      ensures View() == old(View().(pcb := P.Buried(View()), zombies := View().zombies + [me]))
    {
      hide ProcessStore.Valid, ProcessStore.View, P.Reparent;
      var my := Load(me);
      StoreReturnValue(me);
      MoveChildren(me);
      SetStatus(me, P.Zombie);
      JoinZombies(me);
      heir := Follow(my.parent.value);
      if heir.Some? {
        Signal(heir.value, P.SIGCHLD);
      }
    }

    /** What a pointer to the PCB of `p` leads to. */
    method Follow(p: nat) returns (q: Option<nat>)
      requires Sound() && p in View().home && View().home[p] in View().tenant
      ensures q == old(P.Referent(View(), p))
    {
      hide ProcessStore.Valid, ProcessStore.View;
      q := store.Follow(p);
    }

    method StoreReturnValue(me: nat)
      requires Sound() && CanReparent(View().pcb, me, init)
      modifies store.Repr
      ensures Sound() && store.Repr == old(store.Repr) && CanReparent(View().pcb, me, init)
      ensures me in old(View()).pcb
      ensures View() == old(View().(pcb := View().pcb[me := View().pcb[me].(returnValue := View().pcb[me].args[0])]))
    {
      hide ProcessStore.Valid, ProcessStore.View;
      var f := Load(me);
      Write(me, f.(returnValue := f.args[0]));
    }

    method SetStatus(p: nat, status: P.Status)
      requires Sound() && p in View().pcb
      modifies store.Repr
      ensures Sound() && store.Repr == old(store.Repr) && p in old(View()).pcb
      ensures View() == old(View().(pcb := P.SetStatus(View().pcb, p, status)))
    {
      hide ProcessStore.Valid, ProcessStore.View;
      var f := Load(p);
      Write(p, f.(status := status));
    }

    method Signal(p: nat, sig: P.Signal)
      requires Sound() && p in View().pcb
      modifies store.Repr
      ensures Sound() && store.Repr == old(store.Repr) && p in old(View()).pcb
      ensures View() == old(View().(pcb := View().pcb[p := P.Signalled(View().pcb[p], sig)]))
    {
      hide ProcessStore.Valid, ProcessStore.View;
      var f := Load(p);
      Write(p, FieldsOf(P.Signalled(Joined(f, []), sig)));
    }

    /** Every timer of `pid` leaves the list. */
    method CleanTimers(pid: nat)
      requires Sound()
      modifies store.Repr
      ensures Sound() && store.Repr == old(store.Repr)
      ensures View() == old(View().(timers := P.TimersWithout(View().timers, pid),
        timerFree := View().timerFree + |View().timers| - |P.TimersWithout(View().timers, pid)|))
    {
      hide ProcessStore.Valid, ProcessStore.View, P.TimersWithout;
      store.CleanTimers(pid);
    }

    /** The waiting parent takes the dead child's value and leaves the waiting list. */
    method WakeParent(me: nat, parent: nat)
      requires Sound() && me in View().pcb && parent in View().pcb && me != parent
      requires NoDup(View().waiting) && parent in View().waiting
      requires NoDup(View().pcb[parent].children) && me in View().pcb[parent].children
      modifies this`deliveries, store.Repr
      ensures Sound() && store.Repr == old(store.Repr)
      ensures View() == old(ParentWoken(View(), me, parent))
    {
      hide ProcessStore.Valid, ProcessStore.View, Minus, RemovedAt, NoDup;
      ghost var m := View().pcb;
      LeaveWaiting(parent);
      SetStatus(parent, P.Running);
      RemovedAtIsMinus(View().pcb[parent].children, me);
      DropChild(parent, me);
      Deliver(parent, me, true);
      WakeWrites(m, parent, me);
    }

    /** PCBPtr_byPID and List_detach on the children of `p`; the pointer is not freed. */
    method DropChild(p: nat, child: nat)
      requires Sound() && p in View().pcb && child in View().pcb[p].children
      modifies store.Repr
      ensures Sound() && store.Repr == old(store.Repr) && p in old(View()).pcb
      ensures var cs := old(View()).pcb[p].children;
        View() == old(View()).(pcb := WithKids(old(View()).pcb, p, RemovedAt(cs, IndexOf(cs, child))))
    {
      hide ProcessStore.Valid, ProcessStore.View, WithKids, RemovedAt, IndexOf;
      var ptr, k := store.FindChild(p, child);
      store.LoseChild(p, ptr, k);
    }

    /** The zombie's PCB is freed at once and the parent runs. */
    method Vanish(me: nat, parent: nat)
      requires Sound() && me in View().pcb && NoDup(View().zombies) && me in View().zombies
      requires me !in View().ready && me !in View().waiting
      modifies this, store.Repr
      ensures Sound() && store.Repr == old(store.Repr)
      ensures me in old(View()).home
      ensures var v := old(View()); View() == v.(zombies := Minus(v.zombies, [me]), pcb := v.pcb - {me},
        pcbPool := P.Vacated(v, me), running := Some(parent))
    {
      hide ProcessStore.Valid, ProcessStore.View, Minus, NoDup;
      LeaveZombies(me);
      Free(me);
      running := Some(parent);
    }

    /** internal_exit. Tells whether the parent was waiting, in which case the caller's descriptors are closed too. */
    method Exit() returns (handedOver: bool)
      requires Sound() && I.Inv(View()) && P.ExitDefined(View())
      modifies this, store.Repr
      ensures Sound() && store.Repr == old(store.Repr)
      ensures View() == old(P.Exit(View())) && handedOver == old(FK.HandsOver(View()))
    {
      hide ProcessStore.Valid, ProcessStore.View, I.Inv, P.Buried, CanReparent, P.Allocated, P.HandOver, P.BecomeZombie;
      ghost var v := View();
      var me := running.value;
      ExitParts(v);
      FK.ExitCases(v);
      var heir := Bury(me);
      handedOver := false;
      if heir.Some? {
        var up := Load(heir.value);
        handedOver := P.WaitsFor(Joined(up, []), me);
      }
      if handedOver {
        FinishHandOver(me, heir.value, v);
      } else {
        FinishZombie(v);
      }
    }

    method FinishHandOver(me: nat, parent: nat, ghost v: P.Procs)
      requires Sound() && I.Inv(v) && P.ExitDefined(v) && FK.HandsOver(v)
      requires me == v.running.value && P.Heir(v) == Some(parent)
      requires View() == v.(pcb := P.Buried(v), zombies := v.zombies + [me])
      modifies this, store.Repr
      ensures Sound() && store.Repr == old(store.Repr)
      ensures View() == P.HandOver(v)
    {
      hide ProcessStore.Valid, ProcessStore.View, View, I.Inv, P.Buried, Minus, NoDup, P.HandOver, ParentWoken;
      hide P.TimersWithout;
      ExitParts(v);
      HandOverParts(v);
      ghost var b := View();
      ParentWokenFields(b, me, parent);
      WakeParent(me, parent);
      CleanTimers(me);
      Vanish(me, parent);
      HandOverAssembled(v, b);
    }

    method FinishZombie(ghost v: P.Procs)
      requires Sound() && I.Inv(v) && P.ExitDefined(v) && v.ready != []
      requires View() == v.(pcb := P.Buried(v), zombies := v.zombies + [v.running.value])
      modifies this, store.Repr
      ensures Sound() && store.Repr == old(store.Repr)
      ensures View() == P.BecomeZombie(v)
    {
      hide ProcessStore.Valid, ProcessStore.View, I.Inv, P.Buried, P.Allocated;
      ExitParts(v);
      var next := TakeFirstReady();
      SetStatus(next, P.Running);
      running := Some(next);
    }
  }

  ghost function WithArgument(p: P.Pcb, i: nat, value: int): P.Pcb
    requires i < MAX_SYSCALLS_ARGS
  {
    p.(args := p.args[i := value])
  }

  ghost function WithFields(m: map<nat, P.Pcb>, p: nat, f: Fields): map<nat, P.Pcb>
    requires p in m
  {
    m[p := Joined(f, m[p].children)]
  }

  /** A new PCB with the next pid, in the next free block. */
  ghost function Born(s: P.Procs, made: P.Pcb): P.Procs
    requires s.pcbPool != []
  {
    s.(lastPid := s.lastPid + 1, pcb := s.pcb[s.lastPid := made], home := s.home[s.lastPid := s.pcbPool[0]],
       tenant := s.tenant[s.pcbPool[0] := s.lastPid], pcbPool := s.pcbPool[1..])
  }

  function ParentWoken(s: P.Procs, me: nat, parent: nat): P.Procs
    requires me in s.pcb && parent in s.pcb
  {
    var up := s.pcb[parent].(status := P.Running, children := Minus(s.pcb[parent].children, [me]), retvalue := me);
    s.(waiting := Minus(s.waiting, [parent]), pcb := s.pcb[parent := up],
       deliveries := s.deliveries + [P.Delivery(parent, me, up.args[1], s.pcb[me].returnValue, true)])
  }

  lemma ParentWokenFields(s: P.Procs, me: nat, parent: nat)
    requires me in s.pcb && parent in s.pcb
    ensures var t := ParentWoken(s, me, parent);
      t.pcb.Keys == s.pcb.Keys && t == s.(waiting := t.waiting, pcb := t.pcb, deliveries := t.deliveries)
    ensures me !in s.waiting ==> me !in ParentWoken(s, me, parent).waiting
  {
  }

  lemma HandOverAssembled(v: P.Procs, b: P.Procs)
    requires I.Inv(v) && P.ExitDefined(v) && FK.HandsOver(v)
    requires b == v.(pcb := P.Buried(v), zombies := v.zombies + [v.running.value])
    ensures v.running.value in v.home
    ensures var me, parent := v.running.value, P.Heir(v).value;
      var without := P.TimersWithout(v.timers, v.running.value);
      var t := ParentWoken(b, me, parent);
      P.HandOver(v) == t.(timers := without, timerFree := v.timerFree + |v.timers| - |without|,
        zombies := Minus(b.zombies, [me]), pcb := t.pcb - {me}, pcbPool := P.Vacated(v, me),
        running := Some(parent))
  {
    hide I.Inv, P.Buried, P.TimersWithout;
    HandOverParts(v);
  }

  lemma WakeWrites(m: map<nat, P.Pcb>, parent: nat, me: nat)
    requires parent in m
    ensures var a := m[parent].(status := P.Running);
      var b := a.(children := Minus(a.children, [me]));
      m[parent := a][parent := b][parent := b.(retvalue := me)] == m[parent := b.(retvalue := me)]
  {
  }

  lemma ExitParts(s: P.Procs)
    requires I.Inv(s) && P.ExitDefined(s)
    ensures CanReparent(s.pcb, s.running.value, s.init) && Unlisted(s, s.running.value)
    ensures s.running.value in s.pcb && (s.ready != [] ==> s.ready[0] in s.pcb)
    ensures ParentHoused(s)
    ensures FK.HandsOver(s) <==> P.Heir(s).Some? && P.WaitsFor(P.Buried(s)[P.Heir(s).value], s.running.value)
  {
    hide I.Clocked, I.Accounts, P.Buried;
    if P.Heir(s).Some? {
      FK.BuriedFields(s, P.Heir(s).value);
    }
    assert I.Lives(s, s.running.value) && I.Issued(s, s.pcb[s.running.value].parent.value);
    assert forall c <- s.pcb[s.running.value].children :: I.ListedBy(s, c, s.running.value);
  }

  /** Where the parent is, or was, is known. */
  ghost predicate ParentHoused(s: P.Procs) {
    && s.running.Some? && s.running.value in s.pcb && s.pcb[s.running.value].parent.Some?
    && var parent := s.pcb[s.running.value].parent.value;
    parent in s.home && s.home[parent] in s.tenant
  }

  lemma HandOverParts(s: P.Procs)
    requires I.Inv(s) && P.ExitDefined(s) && FK.HandsOver(s)
    ensures var me, parent := s.running.value, P.Heir(s).value;
      && NoDup(s.waiting) && parent in s.waiting && NoDup(s.zombies + [me]) && me in s.zombies + [me]
      && NoDup(P.Buried(s)[parent].children) && me in P.Buried(s)[parent].children
      && Minus(s.zombies + [me], [me]) == s.zombies
  {
    hide I.Clocked, I.Accounts, I.Named, P.Buried;
    var me, parent := s.running.value, P.Heir(s).value;
    assert I.Housed(s, parent);
    FK.HandOverRemoves(s);
    FK.GraveChildren(s);
    hide I.Family, FK.ZombieRemoved, Minus;
    NoDupSnoc(s.zombies, me);
    MinusLast(s.zombies, me);
  }

  /** What the reparenting loop relies on: distinct children, none of them init or the process itself. */
  ghost predicate CanReparent(m: map<nat, P.Pcb>, me: nat, init: nat) {
    && me in m && init in m && me != init && NoDup(m[me].children)
    && forall c <- m[me].children :: c in m && c != me && c != init
  }

  function ChildMoved(m: map<nat, P.Pcb>, me: nat, init: nat): map<nat, P.Pcb>
    requires me in m && init in m && me != init && m[me].children != [] && m[me].children[0] in m
  {
    var c := m[me].children[0];
    var n := m[me := m[me].(children := m[me].children[1..])];
    var o := n[init := n[init].(children := n[init].children + [c])];
    o[c := P.Signalled(o[c], P.SIGHUP)]
  }

  /** The PCBs after `k` turns. */
  function MovedSome(m: map<nat, P.Pcb>, me: nat, init: nat, k: nat): map<nat, P.Pcb>
    requires me in m && k <= |m[me].children|
  {
    map p | p in m ::
      var q := if p in m[me].children[..k] then P.Signalled(m[p], P.SIGHUP) else m[p];
      if p == me then q.(children := m[me].children[k..])
      else if p == init then q.(children := m[init].children + m[me].children[..k])
      else q
  }

  lemma MovedNone(m: map<nat, P.Pcb>, me: nat, init: nat)
    requires CanReparent(m, me, init)
    ensures me in m && init in m && MovedSome(m, me, init, 0) == m
  {
    assert m[me].children[..0] == [] && m[me].children[0..] == m[me].children;
    assert m[init].children + [] == m[init].children;
  }

  lemma MovedAll(m: map<nat, P.Pcb>, me: nat, init: nat)
    requires CanReparent(m, me, init)
    ensures me in m && MovedSome(m, me, init, |m[me].children|) == P.Reparent(m, me, init)
  {
    var n := |m[me].children|;
    assert m[me].children[..n] == m[me].children && m[me].children[n..] == [];
  }

  lemma MovedMore(m: map<nat, P.Pcb>, me: nat, init: nat, k: nat)
    requires CanReparent(m, me, init) && me in m && k < |m[me].children|
    ensures var w := MovedSome(m, me, init, k);
      && me in w && init in w && me != init && w[me].children != [] && w[me].children[0] in w
      && me in MovedSome(m, me, init, k + 1) && ChildMoved(w, me, init) == MovedSome(m, me, init, k + 1)
      && MovedSome(m, me, init, k + 1)[me].children == m[me].children[k + 1..]
  {
    var cs, c := m[me].children, m[me].children[k];
    assert c in cs && OnlyAt(cs, k) && cs[k..][0] == c;
    assert cs[..k + 1] == cs[..k] + [c] && cs[k..][1..] == cs[k + 1..];
    assert c !in cs[..k];
    var w := MovedSome(m, me, init, k);
    var a, b := ChildMoved(w, me, init), MovedSome(m, me, init, k + 1);
    assert a.Keys == m.Keys == b.Keys;
    assert m[init].children + cs[..k] + [c] == m[init].children + cs[..k + 1];
    forall p <- m ensures a[p] == b[p] {
    }
  }

  lemma ZombieChild(s: P.Procs, k: nat)
    requires I.Inv(s) && P.CanRun(s) && k < |s.pcb[s.running.value].children|
    requires s.pcb[s.pcb[s.running.value].children[k]].status == P.Zombie
    ensures var c := s.pcb[s.running.value].children[k];
      c != s.running.value && c in s.pcb && c in s.zombies && NoDup(s.zombies) && c !in s.ready && c !in s.waiting
  {
    hide I.Clocked, I.Accounts, I.Named;
    assert I.ListedBy(s, s.pcb[s.running.value].children[k], s.running.value);
    assert I.Housed(s, s.pcb[s.running.value].children[k]);
  }

  lemma RunnerUnlisted(s: P.Procs)
    requires I.Inv(s) && P.CanRun(s)
    ensures Unlisted(s, s.running.value)
  {
    hide I.Clocked, I.Family, I.Accounts, I.Named;
  }

  /** The child that wait would reap. */
  function Reaped(s: P.Procs): Option<nat>
    requires P.WaitDefined(s)
  {
    var cs := s.pcb[s.running.value].children;
    if cs != [] && s.pcb[cs[P.AwaitedIndex(s)]].status == P.Zombie then Some(cs[P.AwaitedIndex(s)]) else None
  }

  function ChildTaken(s: P.Procs, p: nat, k: nat): P.Procs
    requires p in s.pcb && k < |s.pcb[p].children|
  {
    s.(zombies := Minus(s.zombies, [s.pcb[p].children[k]]), ptrFree := s.ptrFree + 1,
       pcb := s.pcb[p := s.pcb[p].(children := RemovedAt(s.pcb[p].children, k))])
  }

  lemma ReapAssembled(s: P.Procs, k: nat)
    requires P.CanRun(s) && k < |s.pcb[s.running.value].children|
    requires var c := s.pcb[s.running.value].children[k];
      c in s.pcb && c != s.running.value && c !in s.ready && c !in s.waiting
    ensures var me, c, t := s.running.value, s.pcb[s.running.value].children[k], ChildTaken(s, s.running.value, k);
      && me in t.pcb && c in t.pcb && c in t.home && t == s.(zombies := t.zombies, ptrFree := t.ptrFree, pcb := t.pcb)
      && c !in t.zombies
      && P.Reap(s, k) == t.(pcb := t.pcb[me := t.pcb[me].(retvalue := c)] - {c}, pcbPool := P.Vacated(t, c),
           deliveries := t.deliveries + [P.Delivery(me, c, t.pcb[me].args[1], t.pcb[c].returnValue, false)])
  {
    var me, c, t := s.running.value, s.pcb[s.running.value].children[k], ChildTaken(s, s.running.value, k);
    assert t.pcb[me := t.pcb[me].(retvalue := c)] == s.pcb[me := t.pcb[me].(retvalue := c)];
  }

  lemma SpawnWrites(m: map<nat, P.Pcb>, me: nat, child: nat, made: P.Pcb)
    requires me in m && child !in m
    ensures var listed := m[me].(children := m[me].children + [child]);
      m[child := made][me := listed][me := listed.(retvalue := child)]
        == m[me := listed.(retvalue := child)][child := made]
  {
  }

  // ---------- the wake loop ----------

  /** The first timer's process is in the waiting list and nowhere else. */
  ghost predicate CanWake(s: P.Procs) {
    && s.timers != [] && s.timers[0].pid in s.pcb && s.timers[0].pid in s.waiting && NoDup(s.waiting)
    && s.timers[0].pid !in s.ready && s.timers[0].pid !in s.zombies
  }

  /** The process of the first timer, if that is due. */
  function DueFirst(s: P.Procs): Option<nat> {
    if s.timers != [] && s.time >= s.timers[0].wake then Some(s.timers[0].pid) else None
  }

  function Woken(s: P.Procs, previous: Option<nat>): P.Procs
    requires s.timers != [] && s.timers[0].pid in s.pcb
    requires previous.Some? ==> previous.value in s.ready
  {
    var p := s.timers[0].pid;
    s.(waiting := Minus(s.waiting, [p]), ready := InsertedPid(s.ready, previous, p),
       pcb := s.pcb[p := s.pcb[p].(status := P.Ready, hasTimer := false)],
       timers := s.timers[1..], timerFree := s.timerFree + 1)
  }

  /** previous_pcb after `k` turns. */
  function Last(s: P.Procs, k: nat): Option<nat>
    requires k <= |s.timers|
  {
    if k == 0 then None else Some(s.timers[k - 1].pid)
  }

  lemma WokenNone(s: P.Procs)
    ensures P.WakeFirst(s, 0) == s
  {
    MinusNothing(s.waiting, []);
    assert P.WakeAll(s.pcb, []) == s.pcb;
  }

  lemma TimersAfter(s: P.Procs, k: nat)
    requires k <= |s.timers|
    ensures P.WakeFirst(s, k).timers == s.timers[k..] && P.WakeFirst(s, k).time == s.time
    ensures k > 0 ==> s.timers[k - 1..][1..] == s.timers[k..]
  {
  }

  lemma {:induction false} LastOfPrefix(d: seq<nat>, rest: seq<nat>, p: nat)
    requires d != [] && NoDup(d)
    ensures d[|d| - 1] in d + rest
    ensures InsertedPid(d + rest, Some(d[|d| - 1]), p) == d + [p] + rest
  {
    var k := IndexOf(d + rest, d[|d| - 1]);
    assert (d + rest)[|d| - 1] == d[|d| - 1];
    assert OnlyAt(d, |d| - 1);
    assert k == |d| - 1;
    assert (d + rest)[..|d|] == d && (d + rest)[|d|..] == rest;
  }

  lemma FirstOfAll(rest: seq<nat>, p: nat)
    ensures InsertedPid(rest, None, p) == [p] + rest
  {
  }

  lemma PrefixGrows(s: P.Procs, k: nat)
    requires k < |s.timers|
    ensures P.Pids(s.timers[..k + 1]) == P.Pids(s.timers[..k]) + [s.timers[k].pid]
    ensures s.timers[k..][1..] == s.timers[k + 1..] && s.timers[k..][0] == s.timers[k]
  {
    assert s.timers[..k + 1] == s.timers[..k] + [s.timers[k]];
  }

  /** Turn `k` of the loop finds its process where it expects it. */
  lemma WokenReady(s: P.Procs, k: nat)
    requires I.Placed(s) && I.Clocked(s) && k < |s.timers|
    ensures CanWake(P.WakeFirst(s, k))
  {
    var w, p := P.WakeFirst(s, k), s.timers[k].pid;
    SK.PrefixFacts(s, k);
    SK.WakeFirstPlaced(s, k);
    assert P.Pids(s.timers)[k] == p && P.Pids(s.timers[k..])[0] == p;
    assert I.Housed(s, p);
  }

  lemma WokenMore(s: P.Procs, k: nat)
    requires I.Placed(s) && I.Clocked(s) && k < |s.timers|
    ensures var w := P.WakeFirst(s, k);
      && CanWake(w) && (Last(s, k).Some? ==> Last(s, k).value in w.ready)
      && Woken(w, Last(s, k)) == P.WakeFirst(s, k + 1)
  {
    hide NoDup, InsertedPid, Minus, CanWake, I.Placed, I.Clocked;
    var w, d, p := P.WakeFirst(s, k), P.Pids(s.timers[..k]), s.timers[k].pid;
    WokenReady(s, k);
    assert w.timers != [] && p in w.pcb by { CanWakeParts(w); }
    SK.PrefixFacts(s, k);
    PrefixGrows(s, k);
    MinusTwice(s.waiting, d, [p]);
    if k > 0 {
      assert d[k - 1] == s.timers[k - 1].pid;
      LastOfPrefix(d, s.ready, p);
    } else {
      FirstOfAll(s.ready, p);
      assert d + s.ready == s.ready && d + [p] + s.ready == [p] + s.ready;
    }
    WakeOneMore(s.pcb, d, p);
  }

  lemma CanWakeParts(s: P.Procs)
    requires CanWake(s)
    ensures s.timers != [] && s.timers[0].pid in s.pcb
  {
  }

  lemma WakeOneMore(m: map<nat, P.Pcb>, d: seq<nat>, p: nat)
    requires p in m
    ensures var w := P.WakeAll(m, d); w[p := w[p].(status := P.Ready, hasTimer := false)] == P.WakeAll(m, d + [p])
  {
  }

  lemma ScheduleParts(s: P.Procs)
    requires I.Inv(s) && s.running.Some?
    ensures I.Placed(s) && I.Clocked(s)
    ensures P.CanRun(P.Wake(s)) && P.Wake(s).running == s.running && Unlisted(P.Wake(s), s.running.value)
  {
    hide I.Family, I.Accounts, I.Named;
    assert P.Allocated(s) by { I.InvAllocated(s); }
    P.WakeAllocated(s);
    SK.WakePlaced(s);
  }

  /** The registers once the first `i` arguments are in. */
  function Stored(argv: seq<int>, args: P.Registers, i: nat): P.Registers
    requires i <= |argv| <= MAX_SYSCALLS_ARGS
  {
    argv[..i] + args[i..]
  }

  lemma StoredNothing(argv: seq<int>, args: P.Registers)
    requires |argv| <= MAX_SYSCALLS_ARGS
    ensures Stored(argv, args, 0) == args
  {
  }

  lemma StoredOneMore(argv: seq<int>, args: P.Registers, i: nat)
    requires i < |argv| <= MAX_SYSCALLS_ARGS
    ensures Stored(argv, args, i)[i := argv[i]] == Stored(argv, args, i + 1)
  {
  }

  lemma WithPcbHas(s: P.Procs, p: nat, v: P.Pcb)
    ensures p in WithPcb(s, p, v).pcb && WithPcb(s, p, v).pcb[p] == v && WithPcb(s, p, v).running == s.running
  {
  }

  function WithPcb(s: P.Procs, p: nat, v: P.Pcb): P.Procs {
    s.(pcb := s.pcb[p := v])
  }

  lemma WithPcbSame(s: P.Procs, p: nat)
    requires p in s.pcb
    ensures WithPcb(s, p, s.pcb[p]) == s
  {
    assert s.pcb[p := s.pcb[p]] == s.pcb;
  }

  lemma WithPcbTwice(s: P.Procs, p: nat, v: P.Pcb, w: P.Pcb)
    ensures WithPcb(WithPcb(s, p, v), p, w) == WithPcb(s, p, w)
  {
    assert s.pcb[p := v][p := w] == s.pcb[p := w];
  }

  lemma FrontLeaves(ids: seq<nat>)
    requires ids != []
    ensures IndexOf(ids, ids[0]) == 0 && RemovedAt(ids, 0) == ids[1..]
  {
  }

  /** A process in no list: inserting it anywhere succeeds. */
  predicate Unlisted(s: P.Procs, p: nat) {
    p !in s.ready && p !in s.waiting && p !in s.zombies
  }
}
