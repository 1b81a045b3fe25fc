/** What calls have in common: the registers of the caller, the error or result it gets, and blocking on a timer. */
module Callers {
  import opened Constants
  import P = Processes
  import I = ProcessInvariant
  import BK = BlockKeeps

  /** A PCB with the number and the arguments of a call in its registers. */
  function Loaded(p: P.Pcb, num: int, argv: seq<int>): P.Pcb
    requires |argv| <= MAX_SYSCALLS_ARGS
  {
    p.(syscallNum := num, args := argv + p.args[|argv|..])
  }

  /** `r` is `s` with the call recorded. */
  ghost predicate Recording(s: P.Procs, r: P.Procs, me: nat, num: int, argv: seq<int>) {
    && s.running == Some(me) && me in s.pcb && |argv| <= MAX_SYSCALLS_ARGS
    && r == s.(pcb := s.pcb[me := Loaded(s.pcb[me], num, argv)])
  }

  /** The caller runs on with `code` as its return value, and nothing else of any process has changed. */
  ghost predicate Answered(s: P.Procs, t: P.Procs, me: nat, num: int, argv: seq<int>, code: int) {
    && s.running == Some(me) && me in s.pcb && |argv| <= MAX_SYSCALLS_ARGS
    && t == s.(pcb := s.pcb[me := Loaded(s.pcb[me], num, argv).(retvalue := code)])
  }

  lemma Rewritten(m: map<nat, P.Pcb>, me: nat, p: P.Pcb, q: P.Pcb)
    ensures m[me := p][me := q] == m[me := q]
  {
  }

  lemma ReturnMeans(s: P.Procs, r: P.Procs, me: nat, num: int, argv: seq<int>, code: int)
    requires Recording(s, r, me, num, argv) && P.CanRun(r)
    ensures Answered(s, P.Return(r, code), me, num, argv, code)
  {
    var my := Loaded(s.pcb[me], num, argv);
    Rewritten(s.pcb, me, my, my.(retvalue := code));
  }

  // ---------- blocking on a timer ----------

  /** `us` is `ts` with `x` after all timers that are not later. */
  ghost predicate TimerSet(ts: seq<P.Timer>, us: seq<P.Timer>, x: P.Timer) {
    exists k: nat :: k <= |ts| && us == ts[..k] + [x] + ts[k..]
      && (forall i :: 0 <= i < k ==> ts[i].wake <= x.wake) && (forall i :: k <= i < |ts| ==> x.wake < ts[i].wake)
  }

  lemma AddTimerMeans(ts: seq<P.Timer>, wake: int, pid: nat)
    requires I.SortedTimers(ts)
    ensures TimerSet(ts, P.AddTimer(ts, wake, pid), P.Timer(wake, pid))
  {
    var k := P.InsertionPoint(ts, wake);
    Split(ts, wake);
    assert P.AddTimer(ts, wake, pid) == ts[..k] + [P.Timer(wake, pid)] + ts[k..];
  }

  lemma {:induction false} Split(ts: seq<P.Timer>, wake: int)
    requires I.SortedTimers(ts)
    ensures var k := P.InsertionPoint(ts, wake);
      (forall i :: 0 <= i < k ==> ts[i].wake <= wake) && (forall i :: k <= i < |ts| ==> wake < ts[i].wake)
  {
    if ts != [] && ts[0].wake <= wake {
      Split(ts[1..], wake);
      forall i | 0 <= i < |ts| ensures i < P.InsertionPoint(ts, wake) <==> ts[i].wake <= wake {
        assert i > 0 ==> ts[1..][i - 1] == ts[i];
      }
    }
  }

  /** The caller is the last to wait, with a timer for `wake`, and the first ready process runs, if there is one. */
  ghost predicate Sleeps(s: P.Procs, t: P.Procs, me: nat, num: int, argv: seq<int>, wake: int) {
    && s.running == Some(me) && me in s.pcb && |argv| <= MAX_SYSCALLS_ARGS && s.timerFree > 0
    && t == s.(running := if s.ready == [] then None else Some(s.ready[0]),
               ready := if s.ready == [] then [] else s.ready[1..],
               waiting := s.waiting + [me], timers := t.timers, timerFree := s.timerFree - 1,
               pcb := s.pcb[me := Loaded(s.pcb[me], num, argv).(status := P.Waiting)])
    && TimerSet(s.timers, t.timers, P.Timer(wake, me))
  }

  lemma BlockMeans(s: P.Procs, r: P.Procs, me: nat, num: int, argv: seq<int>, wake: int)
    requires Recording(s, r, me, num, argv) && P.CanRun(r) && I.Inv(r)
    ensures !P.TimerRefused(r) && Sleeps(s, P.BlockOnTimer(r, wake), me, num, argv, wake)
  {
    hide I.Placed, I.Family, I.Accounts, I.Named, P.Allocated, TimerSet;
    BK.TimerAvailable(r);
    AddTimerMeans(r.timers, wake, me);
    hide P.AddTimer;
    var my := Loaded(s.pcb[me], num, argv);
    Rewritten(s.pcb, me, my, my.(status := P.Waiting));
  }

  /** The caller sleeps for as long as a queue call does, and the process that runs next gets `code`. */
  ghost predicate Parked(s: P.Procs, t: P.Procs, me: nat, num: int, argv: seq<int>, code: int) {
    && s.ready != [] && s.ready[0] in s.pcb && s.ready[0] != me
    && var next := s.ready[0];
       t.pcb.Keys == s.pcb.Keys && t.pcb[next] == s.pcb[next].(retvalue := code)
       && Sleeps(s, t.(pcb := t.pcb[next := s.pcb[next]]), me, num, argv, s.time + QUEUE_SLEEP)
  }

  lemma ParkMeans(s: P.Procs, r: P.Procs, me: nat, num: int, argv: seq<int>, code: int)
    requires Recording(s, r, me, num, argv) && P.CanRun(r) && I.Inv(r) && r.ready != []
    ensures Parked(s, P.BlockOnQueue(r, code), me, num, argv, code)
  {
    hide P.Allocated, Sleeps, P.BlockOnTimer;
    BlockMeans(s, r, me, num, argv, r.time + QUEUE_SLEEP);
    assert r.ready[0] in r.ready && r.ready[0] != me && r.ready[0] in r.pcb by { NextApart(r); }
    hide I.Inv;
    var b := P.BlockOnTimer(r, r.time + QUEUE_SLEEP);
    assert b.running == Some(r.ready[0]) && b.pcb.Keys == s.pcb.Keys && b.pcb[r.ready[0]] == s.pcb[r.ready[0]]
      by { SleepsFields(s, b, me, num, argv, r.time + QUEUE_SLEEP); }
    assert P.BlockOnQueue(r, code).(pcb := b.pcb) == b;
    PutBack(b.pcb, r.ready[0], b.pcb[r.ready[0]].(retvalue := code));
  }

  lemma PutBack(m: map<nat, P.Pcb>, p: nat, q: P.Pcb)
    requires p in m
    ensures m[p := q][p := m[p]] == m
  {
  }

  lemma NextApart(s: P.Procs)
    requires I.Inv(s) && s.running.Some? && s.ready != []
    ensures s.ready[0] in s.ready && s.ready[0] in s.pcb && s.ready[0] != s.running.value
  {
    assert s.ready[0] in s.ready;
  }

  lemma SleepsFields(s: P.Procs, t: P.Procs, me: nat, num: int, argv: seq<int>, wake: int)
    requires Sleeps(s, t, me, num, argv, wake) && s.ready != [] && s.ready[0] in s.pcb && s.ready[0] != me
    ensures t.running == Some(s.ready[0]) && t.pcb.Keys == s.pcb.Keys && t.pcb[s.ready[0]] == s.pcb[s.ready[0]]
  {
  }
}
