/** The process half of the kernel as values: PCBs, the four process lists, timers and their pools, and what
    each kernel routine does to them. Processes are named by pid, which is never reused; the blocks that hold their
    PCBs are, so a pointer to the PCB of a process that is gone may lead to that of another. */
module Processes {
  import opened Constants
  import opened Sequences

  datatype Status = Invalid | Created | Running | Ready | Waiting | Suspended | Zombie
  datatype Signal = SIGCHLD | SIGHUP
  datatype Timer = Timer(wake: int, pid: nat)

  type Registers = r: seq<int> | |r| == MAX_SYSCALLS_ARGS witness [0, 0, 0, 0, 0, 0, 0, 0]

  datatype Pcb = Pcb(
    status: Status, parent: Option<nat>, children: seq<nat>, hasTimer: bool,
    signals: set<Signal>, signalsMask: set<Signal>,
    returnValue: int, syscallNum: int, args: Registers, retvalue: int)

  /** An exit value handed to a parent: `value` is stored at `address` unless that is null. */
  datatype Delivery = Delivery(parent: nat, child: nat, address: int, value: int, byExit: bool)

  datatype Procs = Procs(
    time: int, lastPid: nat, init: nat, running: Option<nat>,
    ready: seq<nat>, waiting: seq<nat>, zombies: seq<nat>, timers: seq<Timer>,
    pcb: map<nat, Pcb>,
    home: map<nat, nat>,                         // the block that each pid ever issued got for its PCB
    tenant: map<nat, nat>,                       // the last pid that got each block
    pcbPool: seq<nat>, timerFree: nat, ptrFree: nat,
    deliveries: seq<Delivery>)                   // history: every exit value delivered so far

  /** Every pointer the kernel follows, parents excepted, is to an allocated PCB. */
  ghost predicate Allocated(s: Procs) {
    && s.init in s.pcb
    && (s.running.Some? ==> s.running.value in s.pcb)
    && (forall p <- s.ready :: p in s.pcb)
    && (forall p <- s.waiting :: p in s.pcb)
    && (forall p <- s.zombies :: p in s.pcb)
    && (forall p <- Pids(s.timers) :: p in s.pcb)
    && (forall p <- s.pcb :: forall c <- s.pcb[p].children :: c in s.pcb)
    && (forall p <- s.pcb :: p in s.home)
  }

  /** Where a pointer to the PCB of `p` leads: to the process that has its block, if any has. */
  function Referent(s: Procs, p: nat): Option<nat> {
    if p in s.home && s.home[p] in s.tenant && s.tenant[s.home[p]] in s.pcb then Some(s.tenant[s.home[p]]) else None
  }

  /** The free PCB blocks once that of `p` is one. */
  function Vacated(s: Procs, p: nat): seq<nat>
    requires p in s.home
  {
    [s.home[p]] + s.pcbPool
  }

  ghost predicate CanRun(s: Procs) {
    Allocated(s) && s.running.Some?
  }

  function Pids(ts: seq<Timer>): (r: seq<nat>)
    ensures |r| == |ts| && forall i {:trigger r[i]} {:trigger ts[i]} :: 0 <= i < |ts| ==> r[i] == ts[i].pid
  {
    seq(|ts|, i requires 0 <= i < |ts| => ts[i].pid)
  }

  // ---------- disastrOS_syscall and plain returns ----------

  /** The first arguments are overwritten, the others keep their old values. */
  function RecordCall(s: Procs, num: int, argv: seq<int>): Procs
    requires CanRun(s) && |argv| <= MAX_SYSCALLS_ARGS
  {
    var me := s.pcb[s.running.value];
    s.(pcb := s.pcb[s.running.value := me.(syscallNum := num, args := argv + me.args[|argv|..])])
  }

  function Return(s: Procs, value: int): Procs
    requires CanRun(s)
  {
    s.(pcb := s.pcb[s.running.value := s.pcb[s.running.value].(retvalue := value)])
  }

  function SetStatus(m: map<nat, Pcb>, p: nat, status: Status): map<nat, Pcb>
    requires p in m
  {
    m[p := m[p].(status := status)]
  }

  // ---------- timers ----------

  /** How many timers at the front are due at `now`. */
  function DueCount(ts: seq<Timer>, now: int): (n: nat)
    ensures n <= |ts|
  {
    if ts == [] || now < ts[0].wake then 0 else 1 + DueCount(ts[1..], now)
  }

  /** Where TimerList_add puts a new timer: before the first one that is strictly later. */
  function InsertionPoint(ts: seq<Timer>, wake: int): (n: nat)
    ensures n <= |ts|
  {
    if ts == [] || wake < ts[0].wake then 0 else 1 + InsertionPoint(ts[1..], wake)
  }

  function AddTimer(ts: seq<Timer>, wake: int, pid: nat): seq<Timer> {
    InsertedAt(ts, InsertionPoint(ts, wake), Timer(wake, pid))
  }

  // ---------- internal_schedule ----------

  function WakeAll(m: map<nat, Pcb>, ps: seq<nat>): map<nat, Pcb> {
    map p | p in m :: if p in ps then m[p].(status := Ready, hasTimer := false) else m[p]
  }

  /** After `n` turns of the wake loop: the first `n` timers are gone, and their processes have moved, in
      timer order, to the front of the ready list. */
  function WakeFirst(s: Procs, n: nat): Procs
    requires n <= |s.timers|
  {
    var d := Pids(s.timers[..n]);
    s.(timers := s.timers[n..], timerFree := s.timerFree + n, waiting := Minus(s.waiting, d),
       ready := d + s.ready, pcb := WakeAll(s.pcb, d))
  }

  function DuePids(s: Procs): seq<nat> {
    Pids(s.timers[..DueCount(s.timers, s.time)])
  }

  /** The wake loop runs for exactly the due timers. */
  function Wake(s: Procs): Procs {
    WakeFirst(s, DueCount(s.timers, s.time))
  }

  /** Round robin: the first ready process and the running one trade places, the latter going last. */
  function Rotate(s: Procs): Procs
    requires Allocated(s) && (s.ready != [] ==> s.running.Some?)
  {
    if s.ready == [] then s else
      var next, prev := s.ready[0], s.running.value;
      s.(ready := s.ready[1..] + [prev], running := Some(next),
         pcb := SetStatus(SetStatus(s.pcb, prev, Ready), next, Running))
  }

  ghost predicate ScheduleDefined(s: Procs) {
    Allocated(s) && (s.running.None? ==> DuePids(s) == [] && s.ready == [])
  }

  lemma WakeAllocated(s: Procs)
    requires Allocated(s)
    ensures Allocated(Wake(s))
  {
    var n, w := DueCount(s.timers, s.time), Wake(s);
    forall p <- Pids(w.timers) ensures p in w.pcb {
      var i :| 0 <= i < |w.timers| && w.timers[i].pid == p;
      assert s.timers[n + i].pid == p && Pids(s.timers)[n + i] == p;
    }
    forall p <- DuePids(s) ensures p in w.pcb {
      var i :| 0 <= i < n && s.timers[..n][i].pid == p;
      assert Pids(s.timers)[i] == p;
    }
  }

  function Schedule(s: Procs): Procs
    requires ScheduleDefined(s)
  {
    WakeAllocated(s);
    Rotate(Wake(s))
  }

  ghost predicate TickDefined(s: Procs) {
    ScheduleDefined(s.(time := s.time + 1))
  }

  /** timerInterrupt: the clock advances, then the scheduler runs. */
  function Tick(s: Procs): Procs
    requires TickDefined(s)
  {
    Schedule(s.(time := s.time + 1))
  }

  // ---------- blocking ----------

  /** The running process, already marked as waiting, gives way to the first ready one, if any. */
  function PickNext(s: Procs): Procs {
    if s.ready == [] then s.(running := None) else s.(running := Some(s.ready[0]), ready := s.ready[1..])
  }

  function BlockOnTimer(s: Procs, wake: int): Procs
    requires CanRun(s) && s.timerFree > 0
  {
    var me := s.running.value;
    PickNext(s.(timers := AddTimer(s.timers, wake, me), timerFree := s.timerFree - 1,
                waiting := s.waiting + [me], pcb := SetStatus(s.pcb, me, Waiting)))
  }

  /** The two guards that make a timed block fail before anything is changed. */
  ghost predicate TimerRefused(s: Procs)
    requires CanRun(s)
  {
    s.pcb[s.running.value].hasTimer || s.timerFree == 0
  }

  function Sleep(s: Procs): Procs
    requires CanRun(s)
  {
    if s.pcb[s.running.value].hasTimer then Return(s, DSOS_ESLEEP)
    else if s.timerFree == 0 then Return(s, DSOS_ESLEEP)
    else BlockOnTimer(s, s.time + s.pcb[s.running.value].args[0])
  }

  /** A send to a full queue or a receive from an empty one. The error code is stored after the switch,
      so it lands in the process that runs next. */
  function BlockOnQueue(s: Procs, code: int): Procs
    requires CanRun(s) && (!TimerRefused(s) ==> s.ready != [])
  {
    if s.pcb[s.running.value].hasTimer then Return(s, DSOS_ESLEEP)
    else if s.timerFree == 0 then Return(s, DSOS_ESLEEP)
    else
      var b := BlockOnTimer(s, s.time + QUEUE_SLEEP);
      var next := b.running.value;
      b.(pcb := b.pcb[next := b.pcb[next].(retvalue := code)])
  }

  // ---------- internal_wait ----------

  predicate ScanStops(m: map<nat, Pcb>, c: nat, pid: int)
    requires c in m
  {
    (pid == 0 && m[c].status == Zombie) || (pid != 0 && c == pid)
  }

  /** Index of the child the scan ends on: the first that matches, or else the last one. */
  function ScanIndex(m: map<nat, Pcb>, cs: seq<nat>, pid: int): (k: nat)
    requires cs != [] && forall c <- cs :: c in m
    ensures k < |cs|
  {
    if |cs| == 1 || ScanStops(m, cs[0], pid) then 0 else 1 + ScanIndex(m, cs[1..], pid)
  }

  function AwaitedIndex(s: Procs): (k: nat)
    requires CanRun(s) && s.pcb[s.running.value].children != []
    ensures k < |s.pcb[s.running.value].children|
  {
    ScanIndex(s.pcb, s.pcb[s.running.value].children, s.pcb[s.running.value].args[0])
  }

  ghost predicate WaitDefined(s: Procs) {
    && CanRun(s)
    && var cs := s.pcb[s.running.value].children;
    cs == [] || s.pcb[cs[AwaitedIndex(s)]].status == Zombie || s.ready != []
  }

  function Reap(s: Procs, k: nat): Procs
    requires CanRun(s) && k < |s.pcb[s.running.value].children|
  {
    var me := s.running.value;
    var my := s.pcb[me];
    var c := my.children[k];
    s.(zombies := Minus(s.zombies, [c]),
       pcb := s.pcb[me := my.(children := RemovedAt(my.children, k), retvalue := c)] - {c},
       pcbPool := Vacated(s, c), ptrFree := s.ptrFree + 1,
       deliveries := s.deliveries + [Delivery(me, c, my.args[1], s.pcb[c].returnValue, false)])
  }

  function BlockInWait(s: Procs): Procs
    requires CanRun(s)
  {
    var me := s.running.value;
    PickNext(s.(waiting := s.waiting + [me], pcb := SetStatus(s.pcb, me, Waiting)))
  }

  function Wait(s: Procs): Procs
    requires WaitDefined(s)
  {
    var cs := s.pcb[s.running.value].children;
    if cs == [] then Return(s, DSOS_EWAIT)
    else if s.pcb[cs[AwaitedIndex(s)]].status == Zombie then Reap(s, AwaitedIndex(s))
    else BlockInWait(s)
  }

  // ---------- internal_exit ----------

  function Signalled(p: Pcb, sig: Signal): Pcb {
    p.(signals := p.signals + ({sig} * p.signalsMask))
  }

  /** Process `p` after `me`'s children have moved, signalled, to the end of init's. */
  function Reparented(m: map<nat, Pcb>, me: nat, init: nat, p: nat): Pcb
    requires me in m && p in m
  {
    var q := if p in m[me].children then Signalled(m[p], SIGHUP) else m[p];
    if p == me then q.(children := [])
    else if p == init then q.(children := m[init].children + m[me].children)
    else q
  }

  function Reparent(m: map<nat, Pcb>, me: nat, init: nat): map<nat, Pcb>
    requires me in m
  {
    map p | p in m :: Reparented(m, me, init, p)
  }

  /** A parent that called wait for this child, or for any, and is blocked there. */
  predicate WaitsFor(parent: Pcb, child: nat) {
    && parent.status == Waiting
    && parent.syscallNum == DSOS_CALL_WAIT
    && (parent.args[0] == 0 || parent.args[0] == child)
  }

  /** Where the parent pointer of the caller leads, which the parent's block may have been freed and given to another
      process to change. */
  function Heir(s: Procs): Option<nat>
    requires s.running.Some? && s.running.value in s.pcb && s.pcb[s.running.value].parent.Some?
  {
    Referent(s, s.pcb[s.running.value].parent.value)
  }

  /** A process that is found waiting there must list the caller: the pointer to it is looked up in that list and
      detached unchecked. */
  ghost predicate ExitDefined(s: Procs) {
    && CanRun(s)
    && var me := s.running.value;
    && me != s.init
    && s.pcb[me].parent.Some? && Heir(s) != Some(me)
    && if Heir(s).Some? && WaitsFor(s.pcb[Heir(s).value], me) then me in s.pcb[Heir(s).value].children
       else s.ready != []
  }

  /** The PCBs once the exiting process is a zombie, its children moved and its parent signalled. A signal to a free
      block leaves no trace. */
  function Buried(s: Procs): (m: map<nat, Pcb>)
    requires ExitDefined(s)
    ensures m.Keys == s.pcb.Keys
  {
    var me := s.running.value;
    var m := s.pcb[me := s.pcb[me].(returnValue := s.pcb[me].args[0])];
    var r := SetStatus(Reparent(m, me, s.init), me, Zombie);
    if Heir(s).Some? then r[Heir(s).value := Signalled(r[Heir(s).value], SIGCHLD)] else r
  }

  function TimersWithout(ts: seq<Timer>, pid: nat): (r: seq<Timer>)
    ensures |r| <= |ts|
  {
    if ts == [] then []
    else if ts[0].pid == pid then TimersWithout(ts[1..], pid)
    else [ts[0]] + TimersWithout(ts[1..], pid)
  }

  /** The parent is blocked in wait for this process: it collects the value and runs at once. */
  function HandOver(s: Procs): Procs
    requires ExitDefined(s) && Heir(s).Some?
  {
    var me, parent := s.running.value, Heir(s).value;
    var m := Buried(s);
    var up := m[parent].(status := Running, children := Minus(m[parent].children, [me]), retvalue := me);
    s.(running := Some(parent), waiting := Minus(s.waiting, [parent]),
       pcb := m[parent := up] - {me}, pcbPool := Vacated(s, me),
       timers := TimersWithout(s.timers, me),
       timerFree := s.timerFree + |s.timers| - |TimersWithout(s.timers, me)|,
       deliveries := s.deliveries + [Delivery(parent, me, up.args[1], m[me].returnValue, true)])
  }

  function BecomeZombie(s: Procs): Procs
    requires ExitDefined(s) && s.ready != []
  {
    s.(running := Some(s.ready[0]), ready := s.ready[1..], zombies := s.zombies + [s.running.value],
       pcb := SetStatus(Buried(s), s.ready[0], Running))
  }

  function Exit(s: Procs): Procs
    requires ExitDefined(s)
  {
    if Heir(s).Some? && WaitsFor(Buried(s)[Heir(s).value], s.running.value) then HandOver(s) else BecomeZombie(s)
  }

  // ---------- internal_spawn and internal_fork ----------

  ghost predicate SpawnDefined(s: Procs) {
    CanRun(s) && s.pcbPool != [] && s.ptrFree > 0
  }

  const FreshPcb := Pcb(Ready, None, [], false, {}, {SIGCHLD, SIGHUP}, 0, 0, [0, 0, 0, 0, 0, 0, 0, 0], 0)

  function Spawn(s: Procs): Procs
    requires SpawnDefined(s)
  {
    var me, child := s.running.value, s.lastPid;
    var my := s.pcb[me];
    s.(lastPid := s.lastPid + 1, ptrFree := s.ptrFree - 1, pcbPool := s.pcbPool[1..],
       home := s.home[child := s.pcbPool[0]], tenant := s.tenant[s.pcbPool[0] := child],
       ready := s.ready + [child],
       pcb := s.pcb[me := my.(children := my.children + [child], retvalue := child)]
                   [child := FreshPcb.(parent := Some(me))])
  }
}
