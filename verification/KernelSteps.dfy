/** The whole kernel as a state machine: one atomic step per timer interrupt or system call. */
module KernelSteps {
  import opened Constants
  import opened Sequences
  import P = Processes
  import R = Resources

  datatype State = State(ps: P.Procs, rs: R.Table)

  datatype Event =
    | Tick
    | Preempt
    | Sleep(cycles: int)
    | Wait(pid: int, result: int)
    | Exit(value: int)
    | Spawn(entry: int, argument: int)
    | Fork
    | OpenResource(id: int, rtype: int, mode: int)
    | CloseResource(fd: int)
    | DestroyResource(id: int)
    | MqOpen(id: int, rtype: int, mode: int)
    | MqClose(fd: int)
    | MqUnlink(id: int)
    | MqSend(fd: int, msg: int)
    | MqReceive(fd: int, buffer: int)
    | Unimplemented(num: int)  // a number within range that no call has

  /** The syscall number and the arguments disastrOS_syscall records. */
  function Number(e: Event): int
    requires !e.Tick?
  {
    match e
    case Preempt => DSOS_CALL_PREEMPT
    case Sleep(_) => DSOS_CALL_SLEEP
    case Wait(_, _) => DSOS_CALL_WAIT
    case Exit(_) => DSOS_CALL_EXIT
    case Spawn(_, _) => DSOS_CALL_SPAWN
    case Fork => DSOS_CALL_FORK
    case OpenResource(_, _, _) => DSOS_CALL_OPEN_RESOURCE
    case CloseResource(_) => DSOS_CALL_CLOSE_RESOURCE
    case DestroyResource(_) => DSOS_CALL_DESTROY_RESOURCE
    case MqOpen(_, _, _) => DSOS_MQ_OPEN
    case MqClose(_) => DSOS_MQ_CLOSE
    case MqUnlink(_) => DSOS_MQ_UNLINK
    case MqSend(_, _) => DSOS_MQ_SEND
    case MqReceive(_, _) => DSOS_MQ_RECV
    case Unimplemented(num) => num
  }

  function Arguments(e: Event): (args: seq<int>)
    requires !e.Tick?
    ensures |args| <= MAX_SYSCALLS_ARGS
  {
    match e
    case Preempt => []
    case Sleep(cycles) => [cycles]
    case Wait(pid, result) => [pid, result]
    case Exit(value) => [value]
    case Spawn(entry, argument) => [entry, argument]
    case Fork => []
    case OpenResource(id, rtype, mode) => [id, rtype, mode]
    case CloseResource(fd) => [fd]
    case DestroyResource(id) => [id]
    case MqOpen(id, rtype, mode) => [id, rtype, mode]
    case MqClose(fd) => [fd]
    case MqUnlink(id) => [id]
    case MqSend(fd, msg) => [fd, msg]
    case MqReceive(fd, buffer) => [fd, buffer]
    case Unimplemented(_) => []
  }

  function Recorded(ps: P.Procs, e: Event): P.Procs
    requires P.CanRun(ps) && !e.Tick?
  {
    P.RecordCall(ps, Number(e), Arguments(e))
  }

  /** When the C code for `e` is defined in `s`: it follows no null or dangling pointer and no pool it does
      not check is empty. `ps` is the process half with the call recorded. */
  ghost predicate CallDefined(ps: P.Procs, rs: R.Table, e: Event)
    requires !e.Tick?
  {
    && P.CanRun(ps) && R.WellLinked(rs)
    && var me := ps.running.value;
    && me in rs.files
    && match e
       case Preempt => true
       case Sleep(_) => true
       case Wait(_, _) => P.WaitDefined(ps)
       case Exit(_) => P.ExitDefined(ps) && NoDup(rs.files[me].descs)
       case Spawn(_, _) => P.SpawnDefined(ps)
       case Fork => P.SpawnDefined(ps)
       case OpenResource(id, rtype, mode) => R.OpenDefined(rs, me, id, rtype, mode)
       case CloseResource(_) => true
       case DestroyResource(_) => true
       case MqOpen(id, rtype, mode) => R.MqOpenDefined(rs, me, id, rtype, mode)
       case MqClose(_) => true
       case MqUnlink(id) => R.UnlinkDefined(rs, id)
       case MqSend(fd, _) => SendDefined(ps, rs, R.Target(rs, me, fd))
       case MqReceive(fd, _) => ReceiveDefined(ps, rs, R.Target(rs, me, fd))
       case Unimplemented(num) => num == 0 || DSOS_MQ_RECV < num < DSOS_MAX_SYSCALLS
  }

  ghost predicate SendDefined(ps: P.Procs, rs: R.Table, target: Option<int>)
    requires P.CanRun(ps)
  {
    target.Some? ==>
      && R.IsQueue(rs, target.value)
      && if R.Full(rs, target.value) then !P.TimerRefused(ps) ==> ps.ready != [] else rs.messageFree > 0
  }

  ghost predicate ReceiveDefined(ps: P.Procs, rs: R.Table, target: Option<int>)
    requires P.CanRun(ps)
  {
    target.Some? ==>
      && R.IsQueue(rs, target.value)
      && if R.Empty(rs, target.value) then !P.TimerRefused(ps) ==> ps.ready != []
         else R.Messages(rs, target.value) != []
  }

  ghost predicate Enabled(s: State, e: Event) {
    && P.CanRun(s.ps)
    && (!e.Tick? ==> CallDefined(Recorded(s.ps, e), s.rs, e))
  }

  function Returning(ps: P.Procs, out: R.Outcome): State
    requires P.CanRun(ps)
  {
    State(P.Return(ps, out.code), out.table)
  }

  /** A reaped zombie's PCB is freed; its descriptors, if any, are not. */
  function WaitCall(s: State): State
    requires P.WaitDefined(s.ps)
  {
    var cs := s.ps.pcb[s.ps.running.value].children;
    State(P.Wait(s.ps),
          if cs != [] && s.ps.pcb[cs[P.AwaitedIndex(s.ps)]].status == P.Zombie
          then R.FreeProcess(s.rs, cs[P.AwaitedIndex(s.ps)]) else s.rs)
  }

  /** Only the hand-over path closes the descriptors, and only it frees the PCB. */
  function ExitCall(s: State): State
    requires P.ExitDefined(s.ps) && R.WellLinked(s.rs) && s.ps.running.value in s.rs.files
    requires NoDup(s.rs.files[s.ps.running.value].descs)
  {
    var me := s.ps.running.value;
    State(P.Exit(s.ps),
          if P.Heir(s.ps).Some? && P.WaitsFor(P.Buried(s.ps)[P.Heir(s.ps).value], me)
          then R.FreeProcess(R.CloseAll(s.rs, me, s.rs.files[me].descs), me) else s.rs)
  }

  function SpawnCall(s: State): State
    requires P.SpawnDefined(s.ps)
  {
    State(P.Spawn(s.ps), R.NewProcess(s.rs, s.ps.lastPid))
  }

  function SendCall(s: State, target: Option<int>, msg: int): State
    requires P.CanRun(s.ps) && SendDefined(s.ps, s.rs, target)
  {
    if target.None? then State(P.Return(s.ps, DSOS_ERESOURCESEND), s.rs)
    else if R.Full(s.rs, target.value) then State(P.BlockOnQueue(s.ps, DSOS_MQ_FULL), s.rs)
    else State(P.Return(s.ps, 0), R.Enqueue(s.rs, target.value, msg))
  }

  /** The message read replaces the caller's second argument. */
  function Handed(ps: P.Procs, msg: int): P.Procs
    requires P.CanRun(ps)
  {
    var me := ps.running.value;
    ps.(pcb := ps.pcb[me := ps.pcb[me].(args := ps.pcb[me].args[1 := msg])])
  }

  function ReceiveCall(s: State, target: Option<int>): State
    requires P.CanRun(s.ps) && ReceiveDefined(s.ps, s.rs, target)
  {
    if target.None? then State(P.Return(s.ps, DSOS_ERESOURCERECV), s.rs)
    else if R.Empty(s.rs, target.value) then State(P.BlockOnQueue(s.ps, DSOS_MQ_EMPTY), s.rs)
    else State(P.Return(Handed(s.ps, R.Messages(s.rs, target.value)[0]), 0), R.Dequeue(s.rs, target.value))
  }

  function Handle(s: State, e: Event): State
    requires !e.Tick? && CallDefined(s.ps, s.rs, e)
  {
    var me := s.ps.running.value;
    match e
    case Preempt => State(P.Schedule(s.ps), s.rs)
    case Sleep(_) => State(P.Sleep(s.ps), s.rs)
    case Wait(_, _) => WaitCall(s)
    case Exit(_) => ExitCall(s)
    case Spawn(_, _) => SpawnCall(s)
    case Fork => SpawnCall(s)
    case OpenResource(id, rtype, mode) => Returning(s.ps, R.OpenResource(s.rs, me, id, rtype, mode))
    case CloseResource(fd) => Returning(s.ps, R.Close(s.rs, me, fd))
    case DestroyResource(id) => Returning(s.ps, R.Destroy(s.rs, id))
    case MqOpen(id, rtype, mode) => Returning(s.ps, R.MqOpen(s.rs, me, id, rtype, mode))
    case MqClose(fd) => Returning(s.ps, R.Close(s.rs, me, fd))
    case MqUnlink(id) => Returning(s.ps, R.MqUnlink(s.rs, id))
    case MqSend(fd, msg) => SendCall(s, R.Target(s.rs, me, fd), msg)
    case MqReceive(fd, _) => ReceiveCall(s, R.Target(s.rs, me, fd))
    case Unimplemented(_) => State(P.Return(s.ps, DSOS_ESYSCALL_NOT_IMPLEMENTED), s.rs)
  }

  function Step(s: State, e: Event): State
    requires Enabled(s, e)
  {
    if e.Tick? then State(P.Tick(s.ps), s.rs) else Handle(s.(ps := Recorded(s.ps, e)), e)
  }

  /** `e` can happen in `s` and makes it `t`. */
  ghost predicate Leads(s: State, e: Event, t: State) {
    Enabled(s, e) && t == Step(s, e)
  }

  /** A run: each state leads to the next by the event beside it. */
  ghost predicate IsRun(run: seq<State>, es: seq<Event>) {
    && |run| == |es| + 1
    && forall i {:trigger Leads(run[i], es[i], run[i + 1])} :: 0 <= i < |es| ==> Leads(run[i], es[i], run[i + 1])
  }

  lemma RunStep(run: seq<State>, es: seq<Event>, i: nat)
    requires IsRun(run, es) && i < |es|
    ensures Enabled(run[i], es[i]) && run[i + 1] == Step(run[i], es[i])
  {
    hide Enabled, Step;
    assert Leads(run[i], es[i], run[i + 1]);
  }

  lemma RunTail(run: seq<State>, es: seq<Event>)
    requires IsRun(run, es) && es != []
    ensures IsRun(run[1..], es[1..])
    ensures Enabled(run[0], es[0]) && run[1] == Step(run[0], es[0])
  {
    hide Enabled, Step;
    forall i | 0 <= i < |es[1..]| ensures Leads(run[1..][i], es[1..][i], run[1..][i + 1]) {
      RunStep(run, es, i + 1);
    }
    RunStep(run, es, 0);
  }

  /** Right after disastrOS_start: process 0 runs, every pool is full but for its PCB. */
  function BootedProcs(): P.Procs {
    P.Procs(0, 1, 0, Some(0), [], [], [], [], map[0 := P.FreshPcb.(status := P.Running)],
            map[0 := 0], map[0 := 0], Upto(MAX_NUM_PROCESSES)[1..], MAX_NUM_PROCESSES, MAX_NUM_PROCESSES, [])
  }

  /** Static memory: num_msg is 0 in every queue block. */
  function ZeroCounts(): map<nat, nat> {
    map b | b in Upto(MAX_NUM_RESOURCES) :: 0
  }

  function BootedTable(): R.Table {
    R.Table([], map[], map[], map[], map[0 := R.Files(0, [])],
            Upto(MAX_NUM_PROCESSES), Upto(MAX_NUM_PROCESSES), Upto(MAX_NUM_RESOURCES),
            ZeroCounts(), MAX_NUM_RESOURCES, MAX_NUM_RESOURCES, 0, map[], 0)
  }

  function Booted(): State {
    State(BootedProcs(), BootedTable())
  }
}
