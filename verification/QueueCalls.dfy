/** What a send and a receive do to the whole state, field by field. */
module QueueCalls {
  import opened Constants
  import opened KernelSteps
  import opened KernelInvariant
  import opened Callers
  import P = Processes
  import R = Resources
  import I = ProcessInvariant
  import J = ResourceInvariant
  import BK = BlockKeeps

  /** Among the descriptors of `me` one has this fd, and it is of resource `id`. */
  ghost predicate Reaches(t: R.Table, me: nat, fd: int, id: int) {
    me in t.files && exists d <- t.files[me].descs :: d in t.desc && t.desc[d].fd == fd && t.desc[d].rid == id
  }

  /** The first descriptor with an fd is the only one. */
  lemma TargetMeans(t: R.Table, me: nat, fd: int)
    requires J.TableInv(t) && me in t.files
    ensures R.WellLinked(t)
    ensures forall id :: R.Target(t, me, fd) == Some(id) <==> Reaches(t, me, fd, id)
  {
    J.InvLinked(t);
    assert J.Sound(me, t.files[me], t.desc);
  }

  /** Queue `id` gets these messages and this count, and `free` message blocks are left. */
  ghost predicate Refilled(t: R.Table, u: R.Table, id: int, messages: seq<int>, count: nat, free: nat) {
    && id in t.res && t.res[id].kind.Queue?
    && var b := t.res[id].kind.block;
       u == t.(res := t.res[id := t.res[id].(kind := R.Queue(b, messages))], numMsg := t.numMsg[b := count],
               messageFree := free)
  }

  /** An fd that leads nowhere gives the caller an error, and nothing else changes. */
  lemma NowhereMeans(s: State, e: Event)
    requires KernelInv(s) && Enabled(s, e) && (e.MqSend? || e.MqReceive?)
    requires s.ps.running.Some? && forall id :: !Reaches(s.rs, s.ps.running.value, e.fd, id)
    ensures var me, t := s.ps.running.value, Step(s, e);
      && t.rs == s.rs
      && (e.MqSend? ==> Answered(s.ps, t.ps, me, DSOS_MQ_SEND, [e.fd, e.msg], DSOS_ERESOURCESEND))
      && (e.MqReceive? ==> Answered(s.ps, t.ps, me, DSOS_MQ_RECV, [e.fd, e.buffer], DSOS_ERESOURCERECV))
  {
    hide KernelInv, R.WellLinked, P.Allocated, R.Target, Reaches, Answered, P.Return;
    var me := s.ps.running.value;
    Calling(s, e);
    assert J.TableInv(s.rs) by { InvHalves(s); }
    TargetMeans(s.rs, me, e.fd);
    if e.MqSend? {
      ReturnMeans(s.ps, Recorded(s.ps, e), me, DSOS_MQ_SEND, [e.fd, e.msg], DSOS_ERESOURCESEND);
    } else {
      ReturnMeans(s.ps, Recorded(s.ps, e), me, DSOS_MQ_RECV, [e.fd, e.buffer], DSOS_ERESOURCERECV);
    }
  }

  /** What a send or a receive finds under an fd that leads to `id`. */
  lemma Found(s: State, e: Event, id: int)
    requires KernelInv(s) && Enabled(s, e) && (e.MqSend? || e.MqReceive?)
    requires s.ps.running.Some? && Reaches(s.rs, s.ps.running.value, e.fd, id)
    ensures P.CanRun(s.ps) && P.CanRun(Recorded(s.ps, e)) && I.Inv(Recorded(s.ps, e))
    ensures R.WellLinked(s.rs) && s.ps.running.value in s.rs.files
    ensures R.Target(s.rs, s.ps.running.value, e.fd) == Some(id) && R.IsQueue(s.rs, id)
    ensures Recording(s.ps, Recorded(s.ps, e), s.ps.running.value, Number(e), Arguments(e))
    ensures !P.TimerRefused(Recorded(s.ps, e)) && s.rs.numMsg[s.rs.res[id].kind.block] <= MQ_MAX_MSG_SIZE
  {
    hide KernelInv, I.Inv, R.WellLinked, P.Allocated, R.Target;
    Calling(s, e);
    InvHalves(s.(ps := Recorded(s.ps, e)));
    TargetMeans(s.rs, s.ps.running.value, e.fd);
    BK.TimerAvailable(Recorded(s.ps, e));
    J.QueueBounds(s.rs, id);
  }

  /** A queue that counts fewer than ten messages takes one more, and one that counts ten puts the caller to sleep and
      drops the message. */
  lemma SendMeans(s: State, fd: int, msg: int, id: int)
    requires KernelInv(s) && Enabled(s, MqSend(fd, msg))
    requires s.ps.running.Some? && Reaches(s.rs, s.ps.running.value, fd, id)
    ensures var me, t := s.ps.running.value, Step(s, MqSend(fd, msg));
      && id in s.rs.res && s.rs.res[id].kind.Queue? && s.rs.res[id].kind.block in s.rs.numMsg
      && var q, n := s.rs.res[id].kind, s.rs.numMsg[s.rs.res[id].kind.block];
      if n < 10 then
        && Answered(s.ps, t.ps, me, DSOS_MQ_SEND, [fd, msg], 0) && s.rs.messageFree > 0
        && Refilled(s.rs, t.rs, id, q.messages + [msg], n + 1, s.rs.messageFree - 1)
      else
        n == 10 && Parked(s.ps, t.ps, me, DSOS_MQ_SEND, [fd, msg], DSOS_MQ_FULL) && t.rs == s.rs
  {
    hide KernelInv, I.Inv, R.WellLinked, P.Allocated, R.Target, Reaches, Answered, Parked, P.Return, P.BlockOnQueue;
    var e, me := MqSend(fd, msg), s.ps.running.value;
    Found(s, e, id);
    var r := Recorded(s.ps, e);
    if s.rs.numMsg[s.rs.res[id].kind.block] < 10 {
      ReturnMeans(s.ps, r, me, DSOS_MQ_SEND, [fd, msg], 0);
    } else {
      ParkMeans(s.ps, r, me, DSOS_MQ_SEND, [fd, msg], DSOS_MQ_FULL);
    }
  }

  /** A queue that counts no message puts the caller to sleep; from any other the caller gets the first message in its
      second argument. */
  lemma ReceiveMeans(s: State, fd: int, buffer: int, id: int)
    requires KernelInv(s) && Enabled(s, MqReceive(fd, buffer))
    requires s.ps.running.Some? && Reaches(s.rs, s.ps.running.value, fd, id)
    ensures var me, t := s.ps.running.value, Step(s, MqReceive(fd, buffer));
      && id in s.rs.res && s.rs.res[id].kind.Queue? && s.rs.res[id].kind.block in s.rs.numMsg
      && var q, n := s.rs.res[id].kind, s.rs.numMsg[s.rs.res[id].kind.block];
      if n > 0 then
        && q.messages != [] && Answered(s.ps, t.ps, me, DSOS_MQ_RECV, [fd, q.messages[0]], 0)
        && Refilled(s.rs, t.rs, id, q.messages[1..], n - 1, s.rs.messageFree + 1)
      else
        Parked(s.ps, t.ps, me, DSOS_MQ_RECV, [fd, buffer], DSOS_MQ_EMPTY) && t.rs == s.rs
  {
    hide KernelInv, I.Inv, R.WellLinked, P.Allocated, R.Target, Reaches, Answered, Parked, P.Return, P.BlockOnQueue;
    var e, me := MqReceive(fd, buffer), s.ps.running.value;
    Found(s, e, id);
    var r := Recorded(s.ps, e);
    if s.rs.numMsg[s.rs.res[id].kind.block] > 0 {
      HandedMeans(s.ps, r, me, fd, buffer, s.rs.res[id].kind.messages[0]);
    } else {
      ParkMeans(s.ps, r, me, DSOS_MQ_RECV, [fd, buffer], DSOS_MQ_EMPTY);
    }
  }

  lemma HandedMeans(s: P.Procs, r: P.Procs, me: nat, fd: int, buffer: int, msg: int)
    requires Recording(s, r, me, DSOS_MQ_RECV, [fd, buffer]) && P.CanRun(r)
    ensures P.CanRun(Handed(r, msg)) && Answered(s, P.Return(Handed(r, msg), 0), me, DSOS_MQ_RECV, [fd, msg], 0)
  {
    var a, b := Loaded(s.pcb[me], DSOS_MQ_RECV, [fd, buffer]), Loaded(s.pcb[me], DSOS_MQ_RECV, [fd, msg]);
    assert a.args[1 := msg] == b.args;
    Rewritten(s.pcb, me, a, b);
    Rewritten(s.pcb, me, b, b.(retvalue := 0));
  }
}
