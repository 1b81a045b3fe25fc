/** wait and exit: no wakeup is lost, and each exit value is collected once. */
module Wakeups {
  import opened Constants
  import opened Sequences
  import opened Processes
  import opened ProcessInvariant
  import opened ScheduleKeeps
  import opened FamilyKeeps

  /** No process is blocked in wait with a zombie child it waits for. */
  ghost predicate NoLost(s: Procs) {
    forall p <- s.pcb :: forall c <- s.pcb[p].children :: !Lost(s, p, c)
  }

  ghost predicate Lost(s: Procs, p: nat, c: nat)
    requires p in s.pcb
  {
    c in s.pcb && s.pcb[c].status == Zombie && InWaitFor(s.pcb[p], c)
  }

  /** Blocked in a wait for any child, or for `c`. */
  predicate InWaitFor(p: Pcb, c: nat) {
    InWait(p) && (p.args[0] == 0 || p.args[0] == c)
  }

  predicate InWait(p: Pcb) {
    p.status == Waiting && p.syscallNum == DSOS_CALL_WAIT
  }

  /** In `t` nobody is newly blocked in wait or newly a zombie, or has new children while blocked there. */
  ghost predicate NoNewWait(s: Procs, t: Procs) {
    && (forall p <- t.pcb :: InWait(t.pcb[p]) ==>
          p in s.pcb && InWait(s.pcb[p]) && t.pcb[p].args == s.pcb[p].args && t.pcb[p].children == s.pcb[p].children)
    && (forall c <- t.pcb :: t.pcb[c].status == Zombie ==> c in s.pcb && s.pcb[c].status == Zombie)
  }

  lemma NoNewWaitKeeps(s: Procs, t: Procs)
    requires NoLost(s) && NoNewWait(s, t)
    ensures NoLost(t)
  {
    forall p <- t.pcb, c <- t.pcb[p].children ensures !Lost(t, p, c) {
      if InWait(t.pcb[p]) {
        assert c in s.pcb[p].children && !Lost(s, p, c);
      }
    }
  }

  // ---------- wait ----------

  /** The scan stops at the first match, and otherwise falls through to the last child. */
  lemma {:induction false} ScanFinds(m: map<nat, Pcb>, cs: seq<nat>, pid: int)
    requires cs != [] && forall c <- cs :: c in m
    ensures var k := ScanIndex(m, cs, pid);
      && (forall i :: 0 <= i < k ==> !ScanStops(m, cs[i], pid))
      && (ScanStops(m, cs[k], pid) || k == |cs| - 1)
  {
    if |cs| > 1 && !ScanStops(m, cs[0], pid) {
      ScanFinds(m, cs[1..], pid);
      var j := ScanIndex(m, cs[1..], pid);
      forall i | 0 <= i < j + 1 ensures !ScanStops(m, cs[i], pid) {
        assert i > 0 ==> cs[1..][i - 1] == cs[i];
      }
    }
  }

  /** wait(0) reaps the first zombie child, and blocks only when there is none. */
  lemma WaitForAny(s: Procs)
    requires WaitDefined(s) && s.pcb[s.running.value].children != [] && s.pcb[s.running.value].args[0] == 0
    ensures var cs := s.pcb[s.running.value].children;
      if exists c <- cs :: s.pcb[c].status == Zombie
      then exists k: nat :: k < |cs| && s.pcb[cs[k]].status == Zombie && Wait(s) == Reap(s, k)
                            && (forall i :: 0 <= i < k ==> s.pcb[cs[i]].status != Zombie)
      else Wait(s) == BlockInWait(s)
  {
    hide ScanIndex, Minus, RemovedAt;
    var cs := s.pcb[s.running.value].children;
    ScanFinds(s.pcb, cs, 0);
    var k := AwaitedIndex(s);
    if c :| c in cs && s.pcb[c].status == Zombie {
      var i :| 0 <= i < |cs| && cs[i] == c;
      assert ScanStops(s.pcb, cs[i], 0);
      assert s.pcb[cs[k]].status == Zombie;
    }
  }

  /** wait(pid) looks at process pid exactly when that is a child; any other pid makes it look at the last child. */
  lemma WaitForOne(s: Procs)
    requires WaitDefined(s) && s.pcb[s.running.value].children != [] && s.pcb[s.running.value].args[0] != 0
    ensures var cs, pid := s.pcb[s.running.value].children, s.pcb[s.running.value].args[0];
      && (cs[AwaitedIndex(s)] == pid <==> exists c <- cs :: c == pid)
      && (cs[AwaitedIndex(s)] != pid ==> AwaitedIndex(s) == |cs| - 1)
  {
    var cs, pid := s.pcb[s.running.value].children, s.pcb[s.running.value].args[0];
    ScanFinds(s.pcb, cs, pid);
    if c :| c in cs && c == pid {
      var i :| 0 <= i < |cs| && cs[i] == c;
      assert ScanStops(s.pcb, cs[i], pid);
    }
  }

  /** The error that the source announces for a pid that is no child is returned only to the childless:
      otherwise the last child is reaped in its place, or the caller blocks. */
  lemma WaitForStranger(s: Procs, pid: int)
    requires WaitDefined(s) && Family(s) && s.pcb[s.running.value].status != Zombie
    requires s.pcb[s.running.value].args[0] == pid != 0 && forall c <- s.pcb[s.running.value].children :: c != pid
    ensures var cs := s.pcb[s.running.value].children;
      && (Wait(s) == Return(s, DSOS_EWAIT) <==> cs == [])
      && (cs != [] ==> Wait(s) == if s.pcb[cs[|cs| - 1]].status == Zombie then Reap(s, |cs| - 1) else BlockInWait(s))
  {
    var cs := s.pcb[s.running.value].children;
    if cs != [] {
      WaitForOne(s);
      assert ListedBy(s, cs[|cs| - 1], s.running.value);
      if s.pcb[cs[|cs| - 1]].status == Zombie {
        assert |Reap(s, |cs| - 1).deliveries| > |s.deliveries|;
      } else {
        assert |BlockInWait(s).waiting| > |s.waiting|;
      }
    }
  }

  lemma ReapNoLost(s: Procs, k: nat)
    requires NoLost(s) && Placed(s) && CanRun(s) && k < |s.pcb[s.running.value].children|
    ensures NoLost(Reap(s, k))
  {
    NoNewWaitKeeps(s, Reap(s, k));
  }

  lemma WaitNoLost(s: Procs)
    requires NoLost(s) && Inv(s) && WaitDefined(s)
    ensures NoLost(Wait(s))
  {
    hide Clocked, Accounts, Named;
    var me := s.running.value;
    var cs := s.pcb[me].children;
    if cs == [] {
      NoNewWaitKeeps(s, Wait(s));
    } else if s.pcb[cs[AwaitedIndex(s)]].status == Zombie {
      ReapNoLost(s, AwaitedIndex(s));
    } else {
      BlockInWaitNoLost(s);
    }
  }

  /** When the scan ends on a living child, no zombie child is one the caller waits for. */
  lemma NothingToReap(s: Procs, c: nat)
    requires CanRun(s) && c in s.pcb[s.running.value].children
    requires s.pcb[s.pcb[s.running.value].children[AwaitedIndex(s)]].status != Zombie
    ensures s.pcb[c].status == Zombie ==> s.pcb[s.running.value].args[0] != 0 && s.pcb[s.running.value].args[0] != c
  {
    var cs, pid := s.pcb[s.running.value].children, s.pcb[s.running.value].args[0];
    ScanFinds(s.pcb, cs, pid);
    var i :| 0 <= i < |cs| && cs[i] == c;
    if s.pcb[c].status == Zombie && (pid == 0 || pid == c) {
      assert ScanStops(s.pcb, cs[i], pid);
    }
  }

  lemma BlockInWaitNoLost(s: Procs)
    requires NoLost(s) && Placed(s) && CanRun(s)
    requires var cs := s.pcb[s.running.value].children; cs != [] && s.pcb[cs[AwaitedIndex(s)]].status != Zombie
    ensures NoLost(BlockInWait(s))
  {
    hide AwaitedIndex, Placed;
    var me, t := s.running.value, BlockInWait(s);
    forall p <- t.pcb, c <- t.pcb[p].children ensures !Lost(t, p, c) {
      if p == me {
        NothingToReap(s, c);
      } else {
        assert !Lost(s, p, c);
      }
    }
  }

  // ---------- exit ----------

  /** Nobody misses this exit: init is not blocked waiting for a zombie child it now inherits, nor for the
      exiting process itself when that is an orphan. */
  ghost predicate Heard(s: Procs)
    requires ExitDefined(s)
  {
    var me := s.running.value;
    || (s.pcb[me].parent == Some(s.init) && InWaitFor(s.pcb[s.init], me))
    || ((forall c <- s.pcb[me].children :: !Lost(s, s.init, c)) && (Orphan(s, me) ==> !InWaitFor(s.pcb[s.init], me)))
  }

  /** Exit keeps every wakeup exactly when it is heard. */
  lemma ExitNoLost(s: Procs)
    requires NoLost(s) && Inv(s) && ExitDefined(s)
    ensures NoLost(Exit(s)) <==> Heard(s)
  {
    assert Blocked(s);
    HeirIsParent(s);
    assert s.running.value != s.init ==> HasLister(s, s.running.value);
    hide Clocked, Accounts, Named, Buried, Blocked;
    ExitCases(s);
    if HandsOver(s) {
      HandOverNoLost(s);
    } else {
      BecomeZombieNoLost(s);
    }
  }

  /** Only the parent of the caller takes over from it. */
  ghost predicate ToParent(s: Procs)
    requires ExitDefined(s)
  {
    && (s.pcb[s.running.value].parent.value in s.pcb ==> Heir(s) == s.pcb[s.running.value].parent)
    && (HandsOver(s) ==> Heir(s) == s.pcb[s.running.value].parent)
  }

  lemma HandOverNoLost(s: Procs)
    requires NoLost(s) && Family(s) && Placed(s) && ExitDefined(s) && HandsOver(s)
    requires ToParent(s)
    ensures NoLost(HandOver(s)) <==> Heard(s)
  {
    hide Buried;
    var me, t := s.running.value, HandOver(s);
    if Heard(s) {
      forall p <- t.pcb, c <- t.pcb[p].children ensures !Lost(t, p, c) {
        HandedOverHeard(s, p, c);
      }
    } else {
      BuriedFields(s, me);
      assert ListedBy(s, me, Heir(s).value);
      assert !Orphan(s, me);
      var c :| c in s.pcb[me].children && Lost(s, s.init, c);
      HandedOverUnheard(s, c);
    }
  }

  lemma HandedOverHeard(s: Procs, p: nat, c: nat)
    requires NoLost(s) && Family(s) && Placed(s) && ExitDefined(s) && HandsOver(s) && Heard(s)
    requires p in HandOver(s).pcb && c in HandOver(s).pcb[p].children
    requires ToParent(s)
    ensures !Lost(HandOver(s), p, c)
  {
    hide Buried, Placed;
    var me, t := s.running.value, HandOver(s);
    BuriedFields(s, p);
    if p != Heir(s).value && c in t.pcb {
      BuriedFields(s, c);
      if c in s.pcb[p].children {
        assert !Lost(s, p, c);
      } else {
        assert p == s.init && !Lost(s, p, c);
      }
    }
  }

  lemma HandedOverUnheard(s: Procs, c: nat)
    requires Family(s) && ExitDefined(s) && HandsOver(s) && Heir(s) != Some(s.init)
    requires c in s.pcb[s.running.value].children && Lost(s, s.init, c)
    ensures !NoLost(HandOver(s))
  {
    hide Buried;
    var t := HandOver(s);
    BuriedFields(s, s.init);
    BuriedFields(s, c);
    assert ListedBy(s, c, s.running.value);
    assert c in t.pcb[s.init].children && Lost(t, s.init, c);
  }

  lemma BecomeZombieNoLost(s: Procs)
    requires NoLost(s) && Family(s) && Placed(s) && Blocked(s) && ExitDefined(s) && !HandsOver(s)
    requires ToParent(s)
    ensures NoLost(BecomeZombie(s)) <==> Heard(s)
  {
    hide Buried, NoDup, Blocked;
    var me, t := s.running.value, BecomeZombie(s);
    var next := s.ready[0];
    assert next in s.ready;
    if Heard(s) {
      forall p <- t.pcb, c <- t.pcb[p].children ensures !Lost(t, p, c) {
        StillHeard(s, p, c);
      }
    } else {
      BuriedFields(s, s.init);
      if Orphan(s, me) && InWaitFor(s.pcb[s.init], me) {
        BuriedFields(s, me);
        assert me in t.pcb[s.init].children && Lost(t, s.init, me);
      } else {
        var c :| c in s.pcb[me].children && Lost(s, s.init, c);
        BuriedFields(s, c);
        assert c in t.pcb[s.init].children && Lost(t, s.init, c);
      }
    }
  }

  lemma StillHeard(s: Procs, p: nat, c: nat)
    requires NoLost(s) && Family(s) && Placed(s) && Blocked(s) && ExitDefined(s) && !HandsOver(s) && Heard(s)
    requires p in BecomeZombie(s).pcb && c in BecomeZombie(s).pcb[p].children
    requires ToParent(s)
    ensures !Lost(BecomeZombie(s), p, c)
  {
    hide Buried;
    var me, t := s.running.value, BecomeZombie(s);
    assert s.ready[0] in s.ready;
    BuriedFields(s, p);
    Leads(s, p);
    if c in t.pcb {
      BuriedFields(s, c);
      if c in s.pcb[p].children {
        assert !Lost(s, p, c) && ListedBy(s, c, p);
      } else {
        assert p == s.init && c in s.pcb[me].children && ListedBy(s, c, me);
      }
    }
  }

  // ---------- the other routines ----------

  lemma RotateNoLost(s: Procs)
    requires NoLost(s) && Placed(s) && Allocated(s) && (s.ready != [] ==> s.running.Some?)
    ensures NoLost(Rotate(s))
  {
    NoNewWaitKeeps(s, Rotate(s));
  }

  lemma ScheduleNoLost(s: Procs)
    requires NoLost(s) && Inv(s) && s.running.Some? && ScheduleDefined(s)
    ensures NoLost(Schedule(s))
  {
    hide Placed, Clocked, Family, Accounts, Named;
    WakeAllocated(s);
    WakeKeepsInv(s);
    NoNewWaitKeeps(s, Wake(s));
    RotateNoLost(Wake(s));
  }

  lemma BlockNoLost(s: Procs, wake: int)
    requires NoLost(s) && CanRun(s) && s.timerFree > 0 && s.pcb[s.running.value].syscallNum != DSOS_CALL_WAIT
    ensures NoLost(BlockOnTimer(s, wake))
  {
    NoNewWaitKeeps(s, BlockOnTimer(s, wake));
  }

  lemma SpawnNoLost(s: Procs)
    requires NoLost(s) && Placed(s) && SpawnDefined(s)
    ensures NoLost(Spawn(s))
  {
    NoNewWaitKeeps(s, Spawn(s));
  }

  /** Writing registers of a process that is not blocked. */
  lemma RegistersNoLost(s: Procs, t: Procs)
    requires NoLost(s) && s.running.Some? && s.running.value in s.pcb
    requires s.pcb[s.running.value].status in {Running, Ready}
    requires s.running.value in t.pcb && t.pcb == s.pcb[s.running.value := t.pcb[s.running.value]]
    requires t.pcb[s.running.value].status == s.pcb[s.running.value].status
    ensures NoLost(t)
  {
    NoNewWaitKeeps(s, t);
  }
}
