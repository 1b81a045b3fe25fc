/** Blocking on a timer, on a queue or in wait keeps the invariant, and a timer is always available. */
module BlockKeeps {
  import opened Constants
  import opened Sequences
  import opened Processes
  import opened ProcessInvariant
  import opened ScheduleKeeps

  /** The running process marked as waiting, before anyone else is picked. */
  function Parked(s: Procs): Procs
    requires CanRun(s)
  {
    s.(running := None, waiting := s.waiting + [s.running.value], pcb := SetStatus(s.pcb, s.running.value, Waiting))
  }

  lemma ParkedPlaced(s: Procs)
    requires Placed(s) && CanRun(s)
    ensures Placed(Parked(s))
  {
    var me, t := s.running.value, Parked(s);
    NoDupSnoc(s.waiting, me);
    forall p <- t.pcb ensures Housed(t, p) {
      assert Housed(s, p);
    }
  }

  lemma ParkedTree(s: Procs)
    requires Placed(s) && CanRun(s)
    ensures SameTree(s, PickNext(Parked(s)))
  {
  }

  lemma PickNextPlaced(s: Procs)
    requires Placed(s.(running := None))
    ensures Placed(PickNext(s))
  {
    if s.ready != [] {
      var t := PickNext(s);
      NoDupTail(s.ready);
      assert s.ready == [s.ready[0]] + s.ready[1..];
      forall p <- t.pcb ensures Housed(t, p) {
        assert Housed(s.(running := None), p);
      }
    }
  }

  lemma {:induction false} InsertionSplit(ts: seq<Timer>, wake: int)
    requires SortedTimers(ts)
    ensures forall i :: 0 <= i < |ts| ==> (ts[i].wake <= wake <==> i < InsertionPoint(ts, wake))
  {
    if ts != [] && ts[0].wake <= wake {
      InsertionSplit(ts[1..], wake);
      forall i | 0 <= i < |ts| ensures ts[i].wake <= wake <==> i < InsertionPoint(ts, wake) {
        assert i > 0 ==> ts[1..][i - 1] == ts[i];
      }
    }
  }

  /** The timer list stays sorted, and the new timer goes after those due at the same time. */
  lemma {:induction false} AddTimerSorted(ts: seq<Timer>, wake: int, pid: nat)
    requires SortedTimers(ts)
    ensures SortedTimers(AddTimer(ts, wake, pid))
    ensures var k := InsertionPoint(ts, wake);
      && AddTimer(ts, wake, pid) == ts[..k] + [Timer(wake, pid)] + ts[k..]
      && (forall t <- ts[..k] :: t.wake <= wake) && (forall t <- ts[k..] :: wake < t.wake)
  {
    InsertionSplit(ts, wake);
  }

  lemma AddTimerPids(ts: seq<Timer>, wake: int, pid: nat)
    ensures Pids(AddTimer(ts, wake, pid)) == InsertedAt(Pids(ts), InsertionPoint(ts, wake), pid)
    ensures forall p :: p in Pids(AddTimer(ts, wake, pid)) <==> p == pid || p in Pids(ts)
  {
    var k := InsertionPoint(ts, wake);
    assert Pids(AddTimer(ts, wake, pid)) == InsertedAt(Pids(ts), k, pid);
    assert InsertedAt(Pids(ts), k, pid) == Pids(ts)[..k] + [pid] + Pids(ts)[k..];
    assert Pids(ts) == Pids(ts)[..k] + Pids(ts)[k..];
  }

  lemma BlockOnTimerClocked(s: Procs, wake: int)
    requires Placed(s) && Clocked(s) && CanRun(s) && s.timerFree > 0
    requires s.pcb[s.running.value].syscallNum != DSOS_CALL_WAIT
    ensures Clocked(BlockOnTimer(s, wake))
  {
    var me, t := s.running.value, BlockOnTimer(s, wake);
    AddTimerSorted(s.timers, wake, me);
    AddTimerPids(s.timers, wake, me);
    assert me !in Pids(s.timers);
    NoDupInsertedAt(Pids(s.timers), InsertionPoint(s.timers, wake), me);
  }

  lemma BlockOnTimerKeepsInv(s: Procs, wake: int)
    requires Inv(s) && CanRun(s) && s.timerFree > 0
    requires s.pcb[s.running.value].syscallNum != DSOS_CALL_WAIT
    ensures Inv(BlockOnTimer(s, wake))
  {
    hide Placed, Clocked, Accounts, Named;
    var t := BlockOnTimer(s, wake);
    ParkedTree(s);
    ParkedPlaced(s);
    PickNextPlaced(Parked(s));
    assert Placed(t) by {
      PlacedIgnoresTimers(PickNext(Parked(s)), t);
    }
    BlockOnTimerClocked(s, wake);
    SameTreeBooks(s, t);
  }

  lemma PlacedIgnoresTimers(s: Procs, t: Procs)
    requires Placed(s) && t == s.(timers := t.timers, timerFree := t.timerFree)
    ensures Placed(t)
  {
    forall p <- t.pcb ensures Housed(t, p) {
      assert Housed(s, p);
    }
  }

  lemma BlockInWaitClocked(s: Procs)
    requires Placed(s) && Clocked(s) && CanRun(s)
    requires s.pcb[s.running.value].syscallNum == DSOS_CALL_WAIT
    ensures Clocked(BlockInWait(s))
  {
    var t := BlockInWait(s);
    assert forall p <- t.pcb :: p in s.pcb && Timed(s.pcb[p]) == Timed(t.pcb[p]);
  }

  lemma BlockInWaitKeepsInv(s: Procs)
    requires Inv(s) && CanRun(s)
    requires s.pcb[s.running.value].syscallNum == DSOS_CALL_WAIT
    ensures Inv(BlockInWait(s))
  {
    hide Placed, Clocked, Accounts, Named;
    var t := BlockInWait(s);
    ParkedPlaced(s);
    PickNextPlaced(Parked(s));
    assert t == PickNext(Parked(s));
    BlockInWaitClocked(s);
    ParkedTree(s);
    SameTreeBooks(s, t);
  }

  // ---------- a timer is always available ----------

  /** There are fewer timers than processes while some process runs. */
  lemma TimerAvailable(s: Procs)
    requires Inv(s) && s.running.Some?
    ensures s.timerFree > 0
    ensures CanRun(s) && !TimerRefused(s)
  {
    InvAllocated(s);
    var me := s.running.value;
    NoDupFits(Pids(s.timers), s.pcb.Keys - {me});
    assert |s.pcb.Keys - {me}| == |s.pcb.Keys| - 1;
  }

  lemma SleepKeepsInv(s: Procs)
    requires Inv(s) && CanRun(s)
    requires s.pcb[s.running.value].syscallNum != DSOS_CALL_WAIT
    ensures s.timerFree > 0 && Sleep(s) == BlockOnTimer(s, s.time + s.pcb[s.running.value].args[0])
    ensures Inv(Sleep(s))
  {
    hide Inv;
    TimerAvailable(s);
    BlockOnTimerKeepsInv(s, s.time + s.pcb[s.running.value].args[0]);
  }

  lemma ReturnKeepsInv(s: Procs, value: int)
    requires Inv(s) && CanRun(s)
    ensures Inv(Return(s, value))
  {
    SameShapeKeepsInv(s, Return(s, value));
  }

  lemma RecordCallKeepsInv(s: Procs, num: int, argv: seq<int>)
    requires Inv(s) && CanRun(s) && |argv| <= MAX_SYSCALLS_ARGS
    ensures Inv(RecordCall(s, num, argv))
  {
    SameShapeKeepsInv(s, RecordCall(s, num, argv));
  }

  lemma BlockOnQueueKeepsInv(s: Procs, code: int)
    requires Inv(s) && CanRun(s) && s.ready != []
    requires s.pcb[s.running.value].syscallNum != DSOS_CALL_WAIT
    ensures !TimerRefused(s) && Inv(BlockOnQueue(s, code))
  {
    hide Inv;
    TimerAvailable(s);
    BlockOnTimerKeepsInv(s, s.time + QUEUE_SLEEP);
    InvAllocated(BlockOnTimer(s, s.time + QUEUE_SLEEP));
    ReturnKeepsInv(BlockOnTimer(s, s.time + QUEUE_SLEEP), code);
  }
}
