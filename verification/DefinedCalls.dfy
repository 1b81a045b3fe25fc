/** When each call is defined, said of the fields of the state: a caller could test it before the call. */
module DefinedCalls {
  import opened Constants
  import opened KernelSteps
  import opened KernelInvariant
  import opened Callers
  import opened QueueCalls
  import opened FdTables
  import P = Processes
  import R = Resources
  import I = ProcessInvariant
  import J = ResourceInvariant
  import WC = WaitCalls
  import BK = BlockKeeps

  /** `q` is in the block that the parent of `c` got, and is blocked in a wait for `c` or for any child. */
  ghost predicate InTheWay(s: P.Procs, q: nat, c: nat) {
    && c in s.pcb && s.pcb[c].parent.Some? && s.pcb[c].parent.value in s.home
    && q in s.pcb && q in s.home && s.home[q] == s.home[s.pcb[c].parent.value]
    && s.pcb[q].status == P.Waiting && s.pcb[q].syscallNum == DSOS_CALL_WAIT
    && (s.pcb[q].args[0] == 0 || s.pcb[q].args[0] == c)
  }

  /** A wait needs somebody else to run unless there is no child or a zombie to collect. */
  ghost predicate WaitPossible(s: P.Procs, me: nat, pid: int) {
    && me in s.pcb
    && var cs := s.pcb[me].children;
       cs == [] || s.ready != [] || exists k: nat :: WC.Meant(s, cs, pid, k) && WC.Dead(s, cs[k])
  }

  /** Init cannot exit. Another process can if whoever waits in the block of its parent lists it, and, if nobody does,
      if there is somebody else to run. */
  ghost predicate ExitPossible(s: P.Procs, me: nat) {
    && me != s.init
    && (forall q: nat :: InTheWay(s, q, me) ==> me in s.pcb[q].children)
    && ((forall q: nat :: !InTheWay(s, q, me)) ==> s.ready != [])
  }

  /** Making a plain resource takes a Resource block, and it must not have the type of queues. */
  ghost predicate PlainPossible(t: R.Table, id: int, rtype: int, mode: int) {
    Asks(mode, DSOS_CREATE) && id !in t.order ==> t.resourceFree > 0 && rtype != DSOS_MQ
  }

  ghost predicate IsQueue(t: R.Table, id: int) {
    id in t.res && t.res[id].kind.Queue? && t.res[id].kind.block in t.numMsg
  }

  /** A send to a full queue needs somebody else to run, any other a message block. */
  ghost predicate SendPossible(s: State, id: int) {
    && IsQueue(s.rs, id)
    && if s.rs.numMsg[s.rs.res[id].kind.block] == MQ_MAX_MSG_SIZE then s.ps.ready != [] else s.rs.messageFree > 0
  }

  /** A receive from a queue that counts nothing needs somebody else to run, any other a message. */
  ghost predicate ReceivePossible(s: State, id: int) {
    && IsQueue(s.rs, id)
    && if s.rs.numMsg[s.rs.res[id].kind.block] == 0 then s.ps.ready != [] else s.rs.res[id].kind.messages != []
  }

  ghost predicate Possible(s: State, me: nat, e: Event) {
    match e
    case Wait(pid, _) => WaitPossible(s.ps, me, pid)
    case Exit(_) => ExitPossible(s.ps, me)
    case Spawn(_, _) => s.ps.pcbPool != [] && s.ps.ptrFree > 0
    case Fork => s.ps.pcbPool != [] && s.ps.ptrFree > 0
    case OpenResource(id, rtype, mode) => PlainPossible(s.rs, id, rtype, mode)
    case MqOpen(id, rtype, mode) =>
      if rtype != DSOS_MQ then PlainPossible(s.rs, id, rtype, mode)
      else mode == DSOS_CREATE && id !in s.rs.order ==> s.rs.resourceFree > 0 && s.rs.queuePool != []
    case MqUnlink(id) => id in s.rs.order ==> IsQueue(s.rs, id)
    case MqSend(fd, _) => forall id :: Reaches(s.rs, me, fd, id) ==> SendPossible(s, id)
    case MqReceive(fd, _) => forall id :: Reaches(s.rs, me, fd, id) ==> ReceivePossible(s, id)
    case Unimplemented(num) => num == 0 || DSOS_MQ_RECV < num < DSOS_MAX_SYSCALLS
    case _ => true
  }

  lemma WaitWhen(s: P.Procs, r: P.Procs, me: nat, pid: int, result: int)
    requires Recording(s, r, me, DSOS_CALL_WAIT, [pid, result]) && P.CanRun(r) && I.Inv(r)
    ensures P.WaitDefined(r) <==> WaitPossible(s, me, pid)
  {
    hide P.Allocated, WC.Meant, P.AwaitedIndex;
    var cs := s.pcb[me].children;
    if cs != [] {
      WC.ScanMeans(s, r, me, pid, result);
      WC.KnownChild(r, me, P.AwaitedIndex(r));
      hide I.Inv;
      forall k: nat | WC.Meant(s, cs, pid, k) ensures k < |cs| && cs[k] == cs[P.AwaitedIndex(r)] {
        MeantOnce(s, cs, pid, k, P.AwaitedIndex(r));
      }
    }
  }

  lemma MeantOnce(s: P.Procs, cs: seq<nat>, pid: int, j: nat, k: nat)
    requires WC.Meant(s, cs, pid, j) && WC.Meant(s, cs, pid, k)
    ensures j < |cs| && k < |cs| && cs[j] == cs[k]
  {
  }

  lemma ExitWhen(s: P.Procs, r: P.Procs, me: nat, value: int)
    requires Recording(s, r, me, DSOS_CALL_EXIT, [value]) && P.CanRun(r) && I.Inv(r)
    ensures P.ExitDefined(r) <==> ExitPossible(s, me)
  {
    if me != s.init {
      HeirInBlock(r, me);
      hide I.Inv, P.Allocated, P.Referent, P.Heir;
      assert P.Heir(r) != Some(me);
      var q := P.Heir(r);
      assert forall p: nat :: InTheWay(s, p, me) ==> q == Some(p);
      if q.Some? {
        assert P.WaitsFor(r.pcb[q.value], me) <==> InTheWay(s, q.value, me);
      }
    }
  }

  /** The parent pointer of a process that is there leads to whoever is in the same block as its parent was. */
  lemma HeirInBlock(s: P.Procs, me: nat)
    requires I.Inv(s) && s.running == Some(me) && me in s.pcb && me != s.init
    ensures s.pcb[me].parent.Some? && s.pcb[me].parent.value in s.home && P.Heir(s) != Some(me)
    ensures P.Heir(s).Some? ==> P.Heir(s).value in s.pcb
    ensures forall p: nat :: P.Heir(s) == Some(p) <==>
      p in s.pcb && p in s.home && s.home[p] == s.home[s.pcb[me].parent.value]
  {
    hide I.Placed, I.Clocked, I.Accounts;
    assert I.HasLister(s, me);
    I.Leads(s, me);
    assert I.Lives(s, me) && I.Issued(s, s.pcb[me].parent.value);
    assert I.Held(s, s.home[s.pcb[me].parent.value]);
    forall p: nat ensures P.Heir(s) == Some(p) <==>
      p in s.pcb && p in s.home && s.home[p] == s.home[s.pcb[me].parent.value]
    {
      assert p in s.pcb ==> I.Lives(s, p);
    }
  }

  lemma OpenWhen(t: R.Table, me: nat, id: int, rtype: int, mode: int)
    requires J.TableInv(t) && me in t.files
    ensures R.OpenDefined(t, me, id, rtype, mode) <==> PlainPossible(t, id, rtype, mode)
    ensures R.MqOpenDefined(t, me, id, rtype, mode) <==>
      if rtype != DSOS_MQ then PlainPossible(t, id, rtype, mode)
      else mode == DSOS_CREATE && id !in t.order ==> t.resourceFree > 0 && t.queuePool != []
  {
    hide J.TableInv, R.OpenResource, R.HasCreate, R.HasExcl, Asks;
    FlagMeans(mode);
    J.InvLinked(t);
    if rtype != DSOS_MQ && R.OpenDefined(t, me, id, rtype, mode) {
      J.OpenResourceKeeps(t, me, id, rtype, mode);
      J.InvLinked(R.OpenResource(t, me, id, rtype, mode).table);
    }
  }

  lemma UnlinkWhen(t: R.Table, id: int)
    requires J.TableInv(t)
    ensures R.UnlinkDefined(t, id) <==> id in t.order ==> IsQueue(t, id)
  {
    hide J.TableInv;
    J.InvLinked(t);
  }

  lemma QueueCallWhen(s: State, r: P.Procs, me: nat, fd: int)
    requires KernelInv(s) && I.Inv(r) && P.CanRun(r) && r.ready == s.ps.ready && me in s.rs.files
    ensures R.WellLinked(s.rs)
    ensures SendDefined(r, s.rs, R.Target(s.rs, me, fd)) <==>
      forall id :: Reaches(s.rs, me, fd, id) ==> SendPossible(s, id)
    ensures ReceiveDefined(r, s.rs, R.Target(s.rs, me, fd)) <==>
      forall id :: Reaches(s.rs, me, fd, id) ==> ReceivePossible(s, id)
  {
    hide I.Inv, J.TableInv, P.Allocated, Reaches, R.Target, R.WellLinked;
    InvHalves(s);
    TargetMeans(s.rs, me, fd);
    BK.TimerAvailable(r);
  }

  /** Exactly when a call is defined. */
  lemma EnabledWhen(s: State, e: Event)
    requires KernelInv(s)
    ensures Enabled(s, e) <==> s.ps.running.Some? && Possible(s, s.ps.running.value, e)
  {
    hide KernelInv, I.Inv, P.Allocated, P.WaitDefined, P.ExitDefined, R.OpenDefined, R.MqOpenDefined, R.UnlinkDefined;
    hide SendDefined, ReceiveDefined, WaitPossible, ExitPossible, PlainPossible, IsQueue, R.WellLinked, J.TableInv;
    hide Reaches, R.Target;
    if s.ps.running.Some? {
      var me := s.ps.running.value;
      InvHalves(s);
      I.InvAllocated(s.ps);
      if !e.Tick? {
        Calling(s, e);
        var r := Recorded(s.ps, e);
        InvHalves(s.(ps := r));
        match e
        case Wait(pid, result) => WaitWhen(s.ps, r, me, pid, result);
        case Exit(value) => ExitWhen(s.ps, r, me, value);
        case OpenResource(id, rtype, mode) => OpenWhen(s.rs, me, id, rtype, mode);
        case MqOpen(id, rtype, mode) => OpenWhen(s.rs, me, id, rtype, mode);
        case MqUnlink(id) => UnlinkWhen(s.rs, id);
        case MqSend(fd, _) => QueueCallWhen(s, r, me, fd);
        case MqReceive(fd, _) => QueueCallWhen(s, r, me, fd);
        case _ =>
      }
    }
  }
}
