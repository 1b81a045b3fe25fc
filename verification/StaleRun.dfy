/** A run of the kernel, from boot, after which a receive would detach a message from an empty list: a queue is
    unlinked with a message in it, and the next queue inherits its count. */
module StaleRun {
  import opened Constants
  import opened Sequences
  import opened KernelSteps
  import opened ResourceKernels
  import P = Processes
  import R = Resources
  import Q = QueueCounts

  /** Process 0 is on its own. */
  ghost predicate Alone(s: P.Procs) {
    && s.init == 0 && s.running == Some(0) && s.pcb.Keys == {0} && s.pcb[0].children == [] && 0 in s.home
    && s.ready == [] && s.waiting == [] && s.zombies == [] && s.timers == []
  }

  /** A call that only works on the table. */
  lemma TableStep(s: State, e: Event)
    requires Alone(s.ps) && OutcomeDefined(s.rs, 0, e)
    ensures Enabled(s, e) && Alone(Step(s, e).ps) && Step(s, e).rs == OutcomeOf(s.rs, 0, e).table
  {
    hide R.WellLinked, R.OpenResource, R.MqOpen, R.MqOpenDefined, R.OpenDefined, R.UnlinkDefined, OutcomeOf;
    assert P.CanRun(s.ps);
    var r := s.(ps := Recorded(s.ps, e));
    assert Alone(r.ps) && P.CanRun(r.ps);
    hide Recorded, P.Allocated;
    assert CallDefined(r.ps, r.rs, e);
    HandleIsOutcome(r, e);
    hide OutcomeDefined, Handle, CallDefined;
    ReturnsAlone(r.ps, OutcomeOf(s.rs, 0, e).code);
  }

  lemma ReturnsAlone(s: P.Procs, code: int)
    requires Alone(s) && P.CanRun(s)
    ensures Alone(P.Return(s, code))
  {
  }

  lemma SendStep(s: State, fd: int, msg: int)
    requires Alone(s.ps) && 0 in s.rs.files && R.WellLinked(s.rs)
    requires var id := R.Target(s.rs, 0, fd);
      id.Some? && R.IsQueue(s.rs, id.value) && !R.Full(s.rs, id.value) && s.rs.messageFree > 0
    ensures Enabled(s, MqSend(fd, msg)) && Alone(Step(s, MqSend(fd, msg)).ps)
    ensures Step(s, MqSend(fd, msg)).rs == R.Enqueue(s.rs, R.Target(s.rs, 0, fd).value, msg)
  {
    hide R.Target, R.WellLinked;
  }

  // ---------- the tables along the run ----------

  function Counts(): map<nat, nat> { BootedTable().numMsg }

  function Blocks(): seq<nat> { Upto(1024) }

  /** One queue `id` with these messages is open as `fd`; `n` queues have been made. */
  function Opened(id: int, fd: nat, messages: seq<int>, count: nat, n: nat): R.Table
    requires |messages| <= 1 && n <= 2
  {
    R.Table([id], map[id := R.Resource(DSOS_MQ, [0], R.Queue(0, messages))], map[0 := R.Desc(0, fd, id, 0)],
            map[0 := 0], map[0 := R.Files(fd + 1, [0])], Blocks()[1..], Blocks()[1..], Blocks()[1..],
            Counts()[0 := count],
            MAX_NUM_RESOURCES - n, MAX_NUM_RESOURCES - |messages|, n, map[], 0)
  }

  function Closed(): R.Table {
    R.Table([5], map[5 := R.Resource(DSOS_MQ, [], R.Queue(0, [7]))], map[], map[], map[0 := R.Files(1, [])],
            Blocks(), Blocks(), Blocks()[1..], Counts()[0 := 1], MAX_NUM_RESOURCES - 1, MAX_NUM_RESOURCES - 1,
            1, map[], 0)
  }

  function Unlinked(): R.Table {
    R.Table([], map[], map[], map[], map[0 := R.Files(1, [])],
            Blocks(), Blocks(), Blocks(), Counts()[0 := 1], MAX_NUM_RESOURCES - 1, MAX_NUM_RESOURCES, 1, map[], 0)
  }

  lemma BlocksBegin()
    ensures |Blocks()| == 1024 && Blocks()[0] == 0 && [0] + Blocks()[1..] == Blocks()
    ensures Counts()[0 := 0] == Counts() && 0 in Counts()
  {
    UptoFacts(MAX_NUM_RESOURCES);
  }

  /** Two tables with equal parts. */
  lemma Same(t: R.Table, u: R.Table)
    requires t.order == u.order && t.res == u.res && t.desc == u.desc && t.dptr == u.dptr && t.files == u.files
    requires t.descPool == u.descPool && t.ptrPool == u.ptrPool && t.queuePool == u.queuePool && t.numMsg == u.numMsg
    requires t.resourceFree == u.resourceFree && t.messageFree == u.messageFree
    requires t.queuesMade == u.queuesMade && t.stranded == u.stranded && t.lostMessages == u.lostMessages
    ensures t == u
  {
  }

  lemma CreatesQueue(t: R.Table, id: int)
    requires 0 in t.files && R.WellLinked(t) && t.descPool != [] && t.ptrPool != []
    requires t.resourceFree > 0 && t.queuePool != [] && id !in t.order
    ensures OutcomeDefined(t, 0, MqOpen(id, DSOS_MQ, DSOS_CREATE))
    ensures OutcomeOf(t, 0, MqOpen(id, DSOS_MQ, DSOS_CREATE))
      == R.OpenExisting(R.MakeQueue(t, id), 0, id, DSOS_MQ, DSOS_CREATE)
  {
    hide R.OpenExisting, R.OpenResource, R.WellLinked;
  }

  /** Queue 5 has been made, and nobody has opened it yet. */
  function Made(): R.Table {
    R.Table([5], map[5 := R.Resource(DSOS_MQ, [], R.Queue(0, []))], map[], map[], map[0 := R.Files(0, [])],
            Blocks(), Blocks(), Blocks()[1..], Counts(), MAX_NUM_RESOURCES - 1, MAX_NUM_RESOURCES, 1, map[], 0)
  }

  lemma Make5()
    ensures BootedTable().queuePool != [] && R.MakeQueue(BootedTable(), 5) == Made()
  {
    BlocksBegin();
    hide Upto;
    Same(R.MakeQueue(BootedTable(), 5), Made());
  }

  lemma Open5()
    ensures OutcomeDefined(BootedTable(), 0, MqOpen(5, DSOS_MQ, DSOS_CREATE))
    ensures OutcomeOf(BootedTable(), 0, MqOpen(5, DSOS_MQ, DSOS_CREATE)) == R.Outcome(Opened(5, 0, [], 0, 1), 0)
  {
    BlocksBegin();
    hide Upto, OutcomeDefined, OutcomeOf;
    CreatesQueue(BootedTable(), 5);
    Make5();
    hide R.MakeQueue;
    assert [] + [0] == [0];
    Same(R.OpenExisting(Made(), 0, 5, DSOS_MQ, DSOS_CREATE).table, Opened(5, 0, [], 0, 1));
  }

  lemma Send7()
    ensures 0 in Opened(5, 0, [], 0, 1).files && R.WellLinked(Opened(5, 0, [], 0, 1))
    ensures R.Target(Opened(5, 0, [], 0, 1), 0, 0) == Some(5)
    ensures R.IsQueue(Opened(5, 0, [], 0, 1), 5) && !R.Full(Opened(5, 0, [], 0, 1), 5)
    ensures R.Enqueue(Opened(5, 0, [], 0, 1), 5, 7) == Opened(5, 0, [7], 1, 1)
  {
    BlocksBegin();
    hide Upto;
    var t := Opened(5, 0, [], 0, 1);
    assert [] + [7] == [7];
    assert t.numMsg[0 := 1] == Counts()[0 := 1];
    Same(R.Enqueue(t, 5, 7), Opened(5, 0, [7], 1, 1));
  }

  lemma Close0()
    ensures OutcomeDefined(Opened(5, 0, [7], 1, 1), 0, MqClose(0))
    ensures OutcomeOf(Opened(5, 0, [7], 1, 1), 0, MqClose(0)) == R.Outcome(Closed(), 0)
  {
    BlocksBegin();
    hide Upto;
    Same(R.Unlinked(Opened(5, 0, [7], 1, 1), 0, 0), Closed());
  }

  lemma Unlink5()
    ensures OutcomeDefined(Closed(), 0, MqUnlink(5)) && Q.DropsMessages(Closed(), MqUnlink(5))
    ensures OutcomeOf(Closed(), 0, MqUnlink(5)) == R.Outcome(Unlinked(), 0)
  {
    assert OutcomeDefined(Closed(), 0, MqUnlink(5)) && Q.DropsMessages(Closed(), MqUnlink(5)) by {
      UnlinkDrops();
    }
    BlocksBegin();
    hide Upto, OutcomeDefined, Q.DropsMessages;
    Same(R.MqUnlink(Closed(), 5).table, Unlinked());
  }

  lemma UnlinkDrops()
    ensures OutcomeDefined(Closed(), 0, MqUnlink(5)) && Q.DropsMessages(Closed(), MqUnlink(5))
  {
    BlocksBegin();
    hide Upto;
  }

  lemma Open6()
    ensures OutcomeDefined(Unlinked(), 0, MqOpen(6, DSOS_MQ, DSOS_CREATE))
    ensures OutcomeOf(Unlinked(), 0, MqOpen(6, DSOS_MQ, DSOS_CREATE)) == R.Outcome(Opened(6, 1, [], 1, 2), 1)
  {
    BlocksBegin();
    hide Upto;
    hide R.OpenExisting, OutcomeDefined, OutcomeOf;
    CreatesQueue(Unlinked(), 6);
    var m := R.MakeQueue(Unlinked(), 6);
    assert m.order == [6] && m.res == map[6 := R.Resource(DSOS_MQ, [], R.Queue(0, []))];
    Link6(m);
  }

  lemma Link6(m: R.Table)
    requires m.order == [6] && m.res == map[6 := R.Resource(DSOS_MQ, [], R.Queue(0, []))]
    requires m == Unlinked().(order := m.order, res := m.res, queuePool := Blocks()[1..], queuesMade := 2,
                              resourceFree := MAX_NUM_RESOURCES - 2)
    ensures |Blocks()| > 0
    ensures R.OpenExisting(m, 0, 6, DSOS_MQ, DSOS_CREATE) == R.Outcome(Opened(6, 1, [], 1, 2), 1)
  {
    BlocksBegin();
    hide Upto, Blocks;
    assert [] + [0] == [0];
    Same(R.OpenExisting(m, 0, 6, DSOS_MQ, DSOS_CREATE).table, Opened(6, 1, [], 1, 2));
  }

  lemma Receive1(s: State, buffer: int)
    requires Alone(s.ps) && s.rs == Opened(6, 1, [], 1, 2)
    ensures 0 in s.rs.files && R.WellLinked(s.rs) && R.Target(s.rs, 0, 1) == Some(6) && R.IsQueue(s.rs, 6)
    ensures R.Count(s.rs, 6) == 1 && R.Messages(s.rs, 6) == []
    ensures !Enabled(s, MqReceive(1, buffer))
  {
    BlocksBegin();
    hide Upto, Blocks;
  }

  // ---------- the run ----------

  function Calls(): seq<Event> {
    [MqOpen(5, DSOS_MQ, DSOS_CREATE), MqSend(0, 7), MqClose(0), MqUnlink(5), MqOpen(6, DSOS_MQ, DSOS_CREATE)]
  }

  /** The first three calls of process 0, right after boot: a queue is left with a message and no descriptor. */
  lemma UntilClosed() returns (run: seq<State>)
    ensures IsRun(run, Calls()[..3]) && run[0] == Booted()
    ensures Alone(run[3].ps) && run[3].rs == Closed()
  {
    hide Step, Enabled, OutcomeDefined, OutcomeOf, Opened, Closed, R.Target, R.WellLinked;
    var s0 := Booted();
    Open5();
    TableStep(s0, Calls()[0]);
    var s1 := Step(s0, Calls()[0]);
    Send7();
    SendStep(s1, 0, 7);
    var s2 := Step(s1, Calls()[1]);
    Close0();
    TableStep(s2, Calls()[2]);
    run := [s0, s1, s2, Step(s2, Calls()[2])];
  }

  /** Five calls of process 0, right after boot; then num_msg is 1, the list is empty, and a receive would follow a
      null pointer. The fourth call is the unlink that drops a message; after it no queue is left to be wrong about,
      and it is the fifth, which builds a queue on that block, that makes the count of a queue wrong. */
  lemma ReceiveCrashes() returns (run: seq<State>)
    ensures IsRun(run, Calls()) && run[0] == Booted()
    ensures Q.DropsMessages(run[3].rs, Calls()[3]) && !Q.Exact(run[4].rs) && Q.LiveExact(run[4].rs)
    ensures Q.InheritsCount(run[4].rs, Calls()[4]) && !Q.LiveExact(run[5].rs)
    ensures run[5].ps.running == Some(0) && 0 in run[5].rs.files && R.WellLinked(run[5].rs)
    ensures R.Target(run[5].rs, 0, 1) == Some(6) && R.IsQueue(run[5].rs, 6)
    ensures R.Count(run[5].rs, 6) == 1 && R.Messages(run[5].rs, 6) == []
    ensures forall buffer: int :: !Enabled(run[5], MqReceive(1, buffer))
  {
    hide Step, Enabled, OutcomeDefined, OutcomeOf, Opened, Closed, Unlinked, R.Target, R.WellLinked;
    run := UntilClosed();
    Unlink5();
    TableStep(run[3], Calls()[3]);
    var s4 := Step(run[3], Calls()[3]);
    Open6();
    TableStep(s4, Calls()[4]);
    var s5 := Step(s4, Calls()[4]);
    run := run + [s4, s5];
    Receive1(s5, 0);
    forall buffer: int ensures !Enabled(s5, MqReceive(1, buffer)) {
      Receive1(s5, buffer);
    }
    BlockCounts();
    assert !Q.Tallied(s5.rs, 6);
  }

  lemma BlockCounts()
    ensures !Q.Exact(Unlinked()) && Q.LiveExact(Unlinked())
    ensures Q.InheritsCount(Unlinked(), Calls()[4])
  {
    BlocksBegin();
    hide Upto;
    assert Unlinked().queuePool[0] in Unlinked().queuePool;
  }
}
