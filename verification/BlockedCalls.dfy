/** What a send to a full queue and a receive from an empty one really do: the call is dropped, and its error
    code goes to the process that runs next. */
module BlockedCalls {
  import opened Constants
  import opened KernelSteps
  import opened KernelInvariant
  import P = Processes
  import R = Resources
  import I = ProcessInvariant
  import BK = BlockKeeps

  /** The caller sleeps on a timer with its return value untouched, the tables do not change, and `code` lands in
      the PCB of the process that takes over. */
  ghost predicate Astray(s: State, t: State, code: int)
    requires P.CanRun(s.ps) && s.ps.ready != []
  {
    var me, next := s.ps.running.value, s.ps.ready[0];
    && t.rs == s.rs && t.ps.running == Some(next) && t.ps.ready == s.ps.ready[1..]
    && me in t.ps.pcb && next in t.ps.pcb && next != me
    && t.ps.pcb[me].status == P.Waiting && t.ps.pcb[me].retvalue == s.ps.pcb[me].retvalue
    && t.ps.pcb[next].retvalue == code
    && t.ps.timers == P.AddTimer(s.ps.timers, s.ps.time + QUEUE_SLEEP, me)
  }

  lemma BlockedCodeGoesAstray(s: P.Procs, rs: R.Table, code: int)
    requires I.Inv(s) && P.CanRun(s) && s.ready != []
    ensures Astray(State(s, rs), State(P.BlockOnQueue(s, code), rs), code)
  {
    hide I.Clocked, I.Family, I.Accounts, I.Named, P.AddTimer;
    BK.TimerAvailable(s);
    assert s.ready[0] in s.ready;
  }

  lemma AstrayBefore(s: State, e: Event, t: State, code: int)
    requires P.CanRun(s.ps) && !e.Tick? && s.ps.ready != []
    requires P.CanRun(Recorded(s.ps, e)) && Astray(s.(ps := Recorded(s.ps, e)), t, code)
    ensures Astray(s, t, code)
  {
    hide P.AddTimer;
  }

  lemma FullSend(s: State, e: Event)
    requires KernelInv(s) && Enabled(s, e) && e.MqSend?
    requires var target := R.Target(s.rs, s.ps.running.value, e.fd);
      target.Some? && s.rs.numMsg[s.rs.res[target.value].kind.block] == MQ_MAX_MSG_SIZE
    ensures s.ps.ready != [] && Astray(s, Step(s, e), DSOS_MQ_FULL)
  {
    hide KernelInv, I.Inv, P.BlockOnQueue, P.Allocated, R.Target, R.WellLinked, Astray;
    var r := s.(ps := Recorded(s.ps, e));
    RecordedInv(s, e);
    InvHalves(r);
    BK.TimerAvailable(r.ps);
    BlockedCodeGoesAstray(r.ps, s.rs, DSOS_MQ_FULL);
    AstrayBefore(s, e, Step(s, e), DSOS_MQ_FULL);
  }

  lemma EmptyReceive(s: State, e: Event)
    requires KernelInv(s) && Enabled(s, e) && e.MqReceive?
    requires var target := R.Target(s.rs, s.ps.running.value, e.fd);
      target.Some? && s.rs.numMsg[s.rs.res[target.value].kind.block] == 0
    ensures s.ps.ready != [] && Astray(s, Step(s, e), DSOS_MQ_EMPTY)
  {
    hide KernelInv, I.Inv, P.BlockOnQueue, P.Allocated, R.Target, R.WellLinked, Astray;
    var r := s.(ps := Recorded(s.ps, e));
    RecordedInv(s, e);
    InvHalves(r);
    BK.TimerAvailable(r.ps);
    BlockedCodeGoesAstray(r.ps, s.rs, DSOS_MQ_EMPTY);
    AstrayBefore(s, e, Step(s, e), DSOS_MQ_EMPTY);
  }
}
