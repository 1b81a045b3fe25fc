/** The scheduler keeps the invariant. */
module ScheduleKeeps {
  import opened Constants
  import opened Sequences
  import opened Processes
  import opened ProcessInvariant

  /** `t` differs from `s` in nothing that the family tree depends on. */
  ghost predicate SameTree(s: Procs, t: Procs) {
    && s.init == t.init && s.pcb.Keys == t.pcb.Keys
    && forall p <- s.pcb ::
         && s.pcb[p].children == t.pcb[p].children && s.pcb[p].parent == t.pcb[p].parent
         && (s.pcb[p].status == Zombie <==> t.pcb[p].status == Zombie)
  }

  lemma SameTreeFamily(s: Procs, t: Procs)
    requires Family(s) && SameTree(s, t)
    ensures Family(t)
  {
    forall p <- t.pcb, c <- t.pcb[p].children ensures ListedBy(t, c, p) {
      assert p in s.pcb && c in s.pcb[p].children && ListedBy(s, c, p);
    }
    forall c <- t.pcb | c != t.init ensures HasLister(t, c) {
      assert c in s.pcb && HasLister(s, c);
    }
  }

  /** Moving processes between lists leaves the books as they are. */
  lemma SameTreeBooks(s: Procs, t: Procs)
    requires Family(s) && Accounts(s) && Named(s) && SameTree(s, t)
    requires t.lastPid == s.lastPid && t.deliveries == s.deliveries
    requires t.timerFree + |t.timers| == s.timerFree + |s.timers| && t.ptrFree == s.ptrFree
    requires t.pcbPool == s.pcbPool && t.home == s.home && t.tenant == s.tenant
    ensures Family(t) && Accounts(t) && Named(t)
  {
    SameTreeFamily(s, t);
    SameBlocks(s, t);
    assert |s.pcb.Keys| == |t.pcb.Keys|;
    forall p: nat | p < t.lastPid ensures Traced(t, p) {
      assert Traced(s, p);
    }
  }

  /** The due timers are exactly the first DueCount ones. */
  lemma {:induction false} DueSplit(ts: seq<Timer>, now: int)
    requires SortedTimers(ts)
    ensures forall i :: 0 <= i < |ts| ==> (ts[i].wake <= now <==> i < DueCount(ts, now))
  {
    if ts != [] && ts[0].wake <= now {
      DueSplit(ts[1..], now);
      forall i | 0 <= i < |ts| ensures ts[i].wake <= now <==> i < DueCount(ts, now) {
        assert i > 0 ==> ts[1..][i - 1] == ts[i];
      }
    }
  }

  lemma PidsSlice(ts: seq<Timer>, n: nat)
    requires n <= |ts|
    ensures Pids(ts[..n]) == Pids(ts)[..n] && Pids(ts[n..]) == Pids(ts)[n..]
  {
  }

  lemma PrefixFacts(s: Procs, n: nat)
    requires Placed(s) && Clocked(s) && n <= |s.timers|
    ensures var d := Pids(s.timers[..n]);
      && NoDup(d)
      && (forall p <- d :: p in s.pcb && Timed(s.pcb[p]) && p in s.waiting)
      && Pids(s.timers[n..]) == Pids(s.timers)[n..]
      && (forall p <- d :: p !in Pids(s.timers[n..]))
      && (forall p <- Pids(s.timers) :: p in d || p in Pids(s.timers[n..]))
  {
    PidsSlice(s.timers, n);
    NoDupSlice(Pids(s.timers), n);
    assert Pids(s.timers) == Pids(s.timers)[..n] + Pids(s.timers)[n..];
    forall p <- Pids(s.timers[..n]) ensures p in s.pcb && Timed(s.pcb[p]) && p in s.waiting {
      assert p in Pids(s.timers);
      assert Housed(s, p);
    }
  }

  lemma DuePidsFacts(s: Procs)
    requires Placed(s) && Clocked(s)
    ensures NoDup(DuePids(s))
    ensures forall p <- DuePids(s) :: p in s.pcb && Timed(s.pcb[p]) && p in s.waiting
    ensures Pids(Wake(s).timers) == Pids(s.timers)[DueCount(s.timers, s.time)..]
    ensures forall p <- DuePids(s) :: p !in Pids(Wake(s).timers)
    ensures forall p <- Pids(s.timers) :: p in DuePids(s) || p in Pids(Wake(s).timers)
  {
    hide Placed, Clocked, NoDup;
    PrefixFacts(s, DueCount(s.timers, s.time));
  }

  lemma WakeFirstPlaced(s: Procs, n: nat)
    requires Placed(s) && Clocked(s) && n <= |s.timers|
    ensures Placed(WakeFirst(s, n))
  {
    PrefixFacts(s, n);
    var d, t := Pids(s.timers[..n]), WakeFirst(s, n);
    NoDupMinus(s.waiting, d);
    NoDupConcat(d, s.ready);
    forall p <- t.pcb ensures Housed(t, p) {
      assert Housed(s, p);
    }
  }

  lemma WakePlaced(s: Procs)
    requires Placed(s) && Clocked(s)
    ensures Placed(Wake(s))
  {
    WakeFirstPlaced(s, DueCount(s.timers, s.time));
  }

  lemma WakeClocked(s: Procs)
    requires Placed(s) && Clocked(s)
    ensures Clocked(Wake(s))
  {
    DuePidsFacts(s);
    NoDupSlice(Pids(s.timers), DueCount(s.timers, s.time));
  }

  lemma WakeTree(s: Procs)
    requires Placed(s) && Clocked(s)
    ensures SameTree(s, Wake(s))
  {
    DuePidsFacts(s);
  }

  lemma WakeKeepsInv(s: Procs)
    requires Inv(s)
    ensures Inv(Wake(s))
  {
    WakePlaced(s);
    WakeClocked(s);
    WakeTree(s);
    SameTreeBooks(s, Wake(s));
  }

  lemma RotatePlaced(s: Procs)
    requires Placed(s) && Allocated(s) && (s.ready != [] ==> s.running.Some?)
    ensures Placed(Rotate(s)) && SameTree(s, Rotate(s))
  {
    if s.ready != [] {
      var t := Rotate(s);
      var next, prev := s.ready[0], s.running.value;
      NoDupTail(s.ready);
      NoDupSnoc(s.ready[1..], prev);
      assert s.ready == [next] + s.ready[1..];
      forall p <- t.pcb ensures Housed(t, p) {
        assert Housed(s, p);
      }
    }
  }

  lemma RotateClocked(s: Procs)
    requires Placed(s) && Clocked(s) && Allocated(s) && (s.ready != [] ==> s.running.Some?)
    ensures Clocked(Rotate(s))
  {
    var t := Rotate(s);
    assert forall p <- t.pcb :: p in s.pcb && Timed(s.pcb[p]) == Timed(t.pcb[p]);
  }

  lemma RotateKeepsInv(s: Procs)
    requires Inv(s) && (s.ready != [] ==> s.running.Some?)
    ensures Allocated(s) && Inv(Rotate(s))
  {
    InvAllocated(s);
    RotatePlaced(s);
    RotateClocked(s);
    SameTreeBooks(s, Rotate(s));
  }

  lemma ScheduleKeepsInv(s: Procs)
    requires Inv(s) && s.running.Some?
    ensures ScheduleDefined(s) && Inv(Schedule(s))
  {
    InvAllocated(s);
    WakeAllocated(s);
    WakeKeepsInv(s);
    RotateKeepsInv(Wake(s));
  }

  /** What the scheduler does, said without its loop: the `n` timers that are due leave the front of the list,
      their processes queue up, in that order, ahead of the ready ones, and the CPU goes to the first of all. */
  ghost predicate Scheduled(s: Procs, t: Procs, n: nat)
    requires n <= |s.timers| && s.running.Some?
  {
    var woken, me := Pids(s.timers[..n]), s.running.value;
    var queue := woken + s.ready;
    && (forall i {:trigger s.timers[i]} :: 0 <= i < |s.timers| ==> (i < n <==> s.timers[i].wake <= s.time))
    && (queue == [] ==> t == s)
    && (queue != [] ==>
        && t.running == Some(queue[0]) && t.ready == queue[1..] + [me] && queue[0] != me
        && t == s.(running := t.running, ready := t.ready, pcb := t.pcb,
                   waiting := Minus(s.waiting, woken), timers := s.timers[n..], timerFree := s.timerFree + n)
        && t.pcb.Keys == s.pcb.Keys
        && forall p <- s.pcb :: t.pcb[p] ==
             if p == queue[0] then s.pcb[p].(status := Running)
             else if p == me || p in woken then s.pcb[p].(status := Ready) else s.pcb[p])
  }

  lemma ScheduleMeans(s: Procs)
    requires Inv(s) && s.running.Some?
    ensures ScheduleDefined(s)
    ensures DueCount(s.timers, s.time) <= |s.timers| && Scheduled(s, Schedule(s), DueCount(s.timers, s.time))
  {
    hide Inv, NoDup, Minus, SortedTimers, DueCount, ScheduleDefined, Schedule, Scheduled;
    CanSchedule(s);
    DueInFront(s);
    if DuePids(s) + s.ready == [] {
      NobodyScheduled(s);
    } else {
      WokenPcbs(s, DueCount(s.timers, s.time));
      SomebodyRuns(s);
      SomebodyScheduled(s);
    }
  }

  lemma CanSchedule(s: Procs)
    requires Inv(s) && s.running.Some?
    ensures ScheduleDefined(s)
  {
    hide Inv;
    InvAllocated(s);
  }

  lemma NobodyScheduled(s: Procs)
    requires ScheduleDefined(s) && s.running.Some? && DuePids(s) + s.ready == [] && DueFirst(s)
    ensures Scheduled(s, Schedule(s), DueCount(s.timers, s.time))
  {
    hide Schedule;
    NothingWoken(s);
  }

  lemma SomebodyScheduled(s: Procs)
    requires ScheduleDefined(s) && s.running.Some? && DuePids(s) + s.ready != [] && DueFirst(s)
    requires var woken, queue := DuePids(s), DuePids(s) + s.ready;
      && queue[0] != s.running.value && s.running.value !in woken && queue[0] in s.pcb
      && forall p <- s.pcb :: WakeAll(s.pcb, woken)[p] == if p in woken then s.pcb[p].(status := Ready) else s.pcb[p]
    ensures Scheduled(s, Schedule(s), DueCount(s.timers, s.time))
  {
    SomebodyRuns(s);
    hide Minus, NoDup, Schedule, ScheduleDefined, WakeAll;
  }

  ghost predicate DueFirst(s: Procs) {
    forall i {:trigger s.timers[i]} :: 0 <= i < |s.timers| ==>
      (i < DueCount(s.timers, s.time) <==> s.timers[i].wake <= s.time)
  }

  lemma DueInFront(s: Procs)
    requires Inv(s)
    ensures DueFirst(s)
  {
    hide Placed, Family, Accounts, Named;
    DueSplit(s.timers, s.time);
  }

  lemma SomebodyRuns(s: Procs)
    requires ScheduleDefined(s) && s.running.Some? && DuePids(s) + s.ready != []
    requires (DuePids(s) + s.ready)[0] in s.pcb && (DuePids(s) + s.ready)[0] != s.running.value
    ensures var queue, m, t, me := DuePids(s) + s.ready, WakeAll(s.pcb, DuePids(s)), Schedule(s), s.running.value;
      && t == Wake(s).(running := Some(queue[0]), ready := queue[1..] + [me], pcb := t.pcb)
      && t.pcb.Keys == s.pcb.Keys
      && forall p <- s.pcb ::
           t.pcb[p] == m[p].(status := if p == queue[0] then Running else if p == me then Ready else m[p].status)
  {
    hide Minus, NoDup;
    WakeAllocated(s);
  }

  lemma NothingWoken(s: Procs)
    requires ScheduleDefined(s) && DuePids(s) + s.ready == []
    ensures Schedule(s) == s
  {
    assert DuePids(s) == [] && |DuePids(s)| == DueCount(s.timers, s.time);
    MinusNothing(s.waiting, []);
    assert s.timers[0..] == s.timers && WakeAll(s.pcb, []) == s.pcb;
  }

  /** Waking touches the status and the timer of the woken only, and no timer field was set. */
  lemma WokenPcbs(s: Procs, n: nat)
    requires Inv(s) && n <= |s.timers| && s.running.Some? && Pids(s.timers[..n]) + s.ready != []
    ensures var woken := Pids(s.timers[..n]);
      && (woken + s.ready)[0] != s.running.value
      && s.running.value !in woken && (woken + s.ready)[0] in s.pcb
      && forall p <- s.pcb :: WakeAll(s.pcb, woken)[p] == if p in woken then s.pcb[p].(status := Ready) else s.pcb[p]
  {
    hide Family, Accounts, Named;
    PrefixFacts(s, n);
    hide NoDup, SortedTimers;
    assert (Pids(s.timers[..n]) + s.ready)[0] in Pids(s.timers[..n]) + s.ready;
  }
}
