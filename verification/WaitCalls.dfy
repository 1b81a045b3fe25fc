/** What a call of wait does to the whole state, field by field, whatever pid it names. */
module WaitCalls {
  import opened Constants
  import opened Sequences
  import opened KernelSteps
  import opened KernelInvariant
  import opened Callers
  import P = Processes
  import R = Resources
  import I = ProcessInvariant
  import W = Wakeups

  /** The k-th child is gone with its block and the pointer to it, the caller has its pid, its value is delivered, and
      the caller runs on. */
  ghost predicate Collected(s: State, t: State, me: nat, pid: int, result: int, k: nat)
    requires me in s.ps.pcb && k < |s.ps.pcb[me].children|
  {
    var my, c := s.ps.pcb[me], s.ps.pcb[me].children[k];
    && c in s.ps.pcb && c in s.ps.home && c in s.ps.zombies
    && t.ps == s.ps.(
         pcb := s.ps.pcb[me := Loaded(my, DSOS_CALL_WAIT, [pid, result])
                                 .(children := RemovedAt(my.children, k), retvalue := c)] - {c},
         zombies := RemovedAt(s.ps.zombies, IndexOf(s.ps.zombies, c)),
         pcbPool := [s.ps.home[c]] + s.ps.pcbPool, ptrFree := s.ps.ptrFree + 1,
         deliveries := s.ps.deliveries + [P.Delivery(me, c, result, s.ps.pcb[c].returnValue, false)])
    && t.rs == s.rs.(files := s.rs.files - {c})
  }

  /** The caller is the last to wait and the first ready process runs. */
  ghost predicate Blocks(s: State, t: State, me: nat, pid: int, result: int)
    requires me in s.ps.pcb
  {
    && s.ps.ready != [] && t.rs == s.rs
    && t.ps == s.ps.(running := Some(s.ps.ready[0]), ready := s.ps.ready[1..], waiting := s.ps.waiting + [me],
                     pcb := s.ps.pcb[me := Loaded(s.ps.pcb[me], DSOS_CALL_WAIT, [pid, result]).(status := P.Waiting)])
  }

  ghost predicate Dead(s: P.Procs, c: nat) {
    c in s.pcb && s.pcb[c].status == P.Zombie
  }

  /** The child that a wait is about: for pid 0 the first zombie, for the pid of a child that child, and when there is
      none such the last child. */
  ghost predicate Meant(s: P.Procs, cs: seq<nat>, pid: int, k: nat) {
    && k < |cs|
    && if pid == 0 && (exists c <- cs :: Dead(s, c)) then Dead(s, cs[k]) && forall i :: 0 <= i < k ==> !Dead(s, cs[i])
       else if pid != 0 && (exists c <- cs :: c == pid) then cs[k] == pid
       else k == |cs| - 1
  }

  /** A zombie that is meant is collected; for a living child, and for a pid that is no child's unless the last child
      is a zombie, the caller blocks. Only the childless get the error. */
  lemma WaitMeans(s: State, pid: int, result: int) returns (k: nat)
    requires KernelInv(s) && Enabled(s, Wait(pid, result))
    ensures var me, t := s.ps.running.value, Step(s, Wait(pid, result));
      && me in s.ps.pcb
      && var cs := s.ps.pcb[me].children;
      if cs == [] then Answered(s.ps, t.ps, me, DSOS_CALL_WAIT, [pid, result], DSOS_EWAIT) && t.rs == s.rs
      else
        && Meant(s.ps, cs, pid, k)
        && if Dead(s.ps, cs[k]) then Collected(s, t, me, pid, result, k) else Blocks(s, t, me, pid, result)
  {
    hide KernelInv, I.Inv, P.AwaitedIndex, R.WellLinked, P.Allocated, Collected, Blocks, Meant, Step;
    k := 0;
    var e, me := Wait(pid, result), s.ps.running.value;
    Calling(s, e);
    var r := Recorded(s.ps, e);
    if s.ps.pcb[me].children == [] {
      Childless(s, pid, result);
    } else {
      k := P.AwaitedIndex(r);
      ScanEndsOn(s, pid, result, k);
      ScanMeans(s.ps, r, me, pid, result);
    }
  }

  lemma Childless(s: State, pid: int, result: int)
    requires KernelInv(s) && Enabled(s, Wait(pid, result))
    requires s.ps.running.Some? && s.ps.running.value in s.ps.pcb && s.ps.pcb[s.ps.running.value].children == []
    ensures var me, t := s.ps.running.value, Step(s, Wait(pid, result));
      Answered(s.ps, t.ps, me, DSOS_CALL_WAIT, [pid, result], DSOS_EWAIT) && t.rs == s.rs
  {
    hide KernelInv, R.WellLinked, P.Allocated;
    var me := s.ps.running.value;
    Calling(s, Wait(pid, result));
    ReturnMeans(s.ps, Recorded(s.ps, Wait(pid, result)), me, DSOS_CALL_WAIT, [pid, result], DSOS_EWAIT);
  }

  lemma ScanMeans(s: P.Procs, r: P.Procs, me: nat, pid: int, result: int)
    requires Recording(s, r, me, DSOS_CALL_WAIT, [pid, result]) && P.CanRun(r) && s.pcb[me].children != []
    ensures Meant(s, s.pcb[me].children, pid, P.AwaitedIndex(r))
  {
    var cs := s.pcb[me].children;
    assert forall c <- cs :: c in r.pcb && (r.pcb[c].status == P.Zombie <==> Dead(s, c));
    hide P.Allocated;
    var k := P.AwaitedIndex(r);
    assert k == P.ScanIndex(r.pcb, cs, pid);
    W.ScanFinds(r.pcb, cs, pid);
    forall c <- cs | (if pid == 0 then Dead(s, c) else c == pid)
      ensures P.ScanStops(r.pcb, cs[k], pid)
    {
      var i :| 0 <= i < |cs| && cs[i] == c;
      assert P.ScanStops(r.pcb, cs[i], pid);
    }
    if pid == 0 && (exists c <- cs :: Dead(s, c)) {
      assert Dead(s, cs[k]);
      forall i | 0 <= i < k ensures !Dead(s, cs[i]) {
        assert !P.ScanStops(r.pcb, cs[i], pid) && cs[i] in cs;
      }
    } else if pid != 0 && (exists c <- cs :: c == pid) {
      assert cs[k] == pid;
    } else {
      assert cs[k] in cs && !P.ScanStops(r.pcb, cs[k], pid);
    }
  }

  /** A wait whose scan ends on the k-th child. */
  lemma ScanEndsOn(s: State, pid: int, result: int, k: nat)
    requires KernelInv(s) && Enabled(s, Wait(pid, result))
    requires s.ps.running.Some? && s.ps.running.value in s.ps.pcb
    requires k < |s.ps.pcb[s.ps.running.value].children| && P.CanRun(Recorded(s.ps, Wait(pid, result)))
    requires P.AwaitedIndex(Recorded(s.ps, Wait(pid, result))) == k
    ensures var me, t := s.ps.running.value, Step(s, Wait(pid, result));
      if Dead(s.ps, s.ps.pcb[me].children[k]) then Collected(s, t, me, pid, result, k)
      else Blocks(s, t, me, pid, result)
  {
    hide KernelInv, I.Inv, P.AwaitedIndex, R.WellLinked, P.Allocated, Collected, Blocks, P.Reap, P.BlockInWait;
    var e, me := Wait(pid, result), s.ps.running.value;
    Calling(s, e);
    var r := Recorded(s.ps, e);
    InvHalves(s.(ps := r));
    assert Recording(s.ps, r, me, DSOS_CALL_WAIT, [pid, result]);
    var c := r.pcb[me].children[k];
    KnownChild(r, me, k);
    if Dead(s.ps, c) {
      ReapMeans(s, r, me, pid, result, k);
    } else {
      BlockMeans(s, r, me, pid, result);
    }
  }

  lemma ReapMeans(s: State, r: P.Procs, me: nat, pid: int, result: int, k: nat)
    requires Recording(s.ps, r, me, DSOS_CALL_WAIT, [pid, result]) && I.Inv(r) && P.CanRun(r)
    requires k < |r.pcb[me].children|
    requires Dead(s.ps, r.pcb[me].children[k])
    ensures var c := r.pcb[me].children[k];
      Collected(s, State(P.Reap(r, k), R.FreeProcess(s.rs, c)), me, pid, result, k)
  {
    var c := r.pcb[me].children[k];
    KnownChild(r, me, k);
    hide I.Inv, P.Allocated, RemovedAt, IndexOf, Minus, NoDup;
    RemovedAtIsMinus(r.zombies, c);
    assert r.pcb[me].args[1] == result;
    Rewritten(s.ps.pcb, me, Loaded(s.ps.pcb[me], DSOS_CALL_WAIT, [pid, result]),
              Loaded(s.ps.pcb[me], DSOS_CALL_WAIT, [pid, result]).(children := RemovedAt(r.pcb[me].children, k),
                retvalue := c));
  }

  lemma BlockMeans(s: State, r: P.Procs, me: nat, pid: int, result: int)
    requires Recording(s.ps, r, me, DSOS_CALL_WAIT, [pid, result]) && P.CanRun(r) && s.ps.ready != []
    ensures Blocks(s, State(P.BlockInWait(r), s.rs), me, pid, result)
  {
    hide P.Allocated;
    var my := Loaded(s.ps.pcb[me], DSOS_CALL_WAIT, [pid, result]);
    Rewritten(s.ps.pcb, me, my, my.(status := P.Waiting));
  }

  lemma KnownChild(s: P.Procs, me: nat, k: nat)
    requires I.Inv(s) && me in s.pcb && k < |s.pcb[me].children|
    ensures var c := s.pcb[me].children[k];
      && c in s.pcb && c != me && c in s.home
      && NoDup(s.zombies) && (s.pcb[c].status == P.Zombie ==> c in s.zombies)
  {
    var c := s.pcb[me].children[k];
    assert I.ListedBy(s, c, me);
    assert I.Lives(s, c) && I.Housed(s, c);
  }
}
