/** Message queues over whole runs: first in, first out, without loss or repetition. */
module QueueHistory {
  import opened Constants
  import opened Sequences
  import opened KernelSteps
  import opened KernelInvariant
  import opened TableCalls
  import opened Resources
  import P = Processes
  import J = ResourceInvariant

  // ---------- what one event sends and receives ----------

  ghost function SentBy(s: State, e: Event, id: int): seq<int>
    requires Enabled(s, e)
  {
    if e.MqSend? && Target(s.rs, s.ps.running.value, e.fd) == Some(id)
         && s.rs.numMsg[s.rs.res[id].kind.block] != MQ_MAX_MSG_SIZE
    then [e.msg] else []
  }

  ghost function ReceivedBy(s: State, e: Event, id: int): seq<int>
    requires Enabled(s, e)
  {
    if e.MqReceive? && Target(s.rs, s.ps.running.value, e.fd) == Some(id)
         && s.rs.numMsg[s.rs.res[id].kind.block] != 0
    then [Messages(s.rs, id)[0]] else []
  }

  /** Everything sent to queue `id` along the run, in order. */
  ghost function Sent(run: seq<State>, es: seq<Event>, id: int): seq<int>
    requires IsRun(run, es)
    decreases es
  {
    if es == [] then [] else
      RunTail(run, es);
      SentBy(run[0], es[0], id) + Sent(run[1..], es[1..], id)
  }

  ghost function Received(run: seq<State>, es: seq<Event>, id: int): seq<int>
    requires IsRun(run, es)
    decreases es
  {
    if es == [] then [] else
      RunTail(run, es);
      ReceivedBy(run[0], es[0], id) + Received(run[1..], es[1..], id)
  }

  // ---------- which calls touch a queue ----------

  /** Resource `id`, if still there, has the same kind and contents. */
  ghost predicate SameKind(t: Table, u: Table, id: int) {
    id in t.res && id in u.res ==> u.res[id].kind == t.res[id].kind
  }

  lemma {:induction false} CloseAllSameKind(t: Table, pid: nat, ds: seq<nat>, id: int)
    requires pid in t.files && NoDup(ds) && forall d <- ds :: d in t.desc && t.desc[d].rid in t.res
    ensures CloseAll(t, pid, ds).res.Keys == t.res.Keys && CloseAll(t, pid, ds).numMsg == t.numMsg
    ensures CloseAll(t, pid, ds).queuePool == t.queuePool && CloseAll(t, pid, ds).order == t.order
    ensures CloseAll(t, pid, ds).stranded == t.stranded && CloseAll(t, pid, ds).queuesMade == t.queuesMade
    ensures CloseAll(t, pid, ds).lostMessages == t.lostMessages
    ensures SameKind(t, CloseAll(t, pid, ds), id)
    decreases ds
  {
    if ds != [] {
      NoDupTail(ds);
      CloseAllSameKind(Unlinked(t, pid, ds[0]), pid, ds[1..], id);
    }
  }

  /** Apart from send and receive no call touches the contents of a queue that survives it. */
  lemma TableCallSameKind(t: Table, u: Table, pid: nat, e: Event, id: int)
    requires TableCall(t, u, pid, e) && id in t.order
    ensures SameKind(t, u, id)
  {
    hide R.OpenResource, R.MqOpen, MqOpenDefined, OpenDefined, NoDup, Minus;
    if e.Exit? {
      CloseAllSameKind(t, pid, t.files[pid].descs, id);
    } else if e.OpenResource? || e.MqOpen? {
      OpenCallSameKind(t, u, pid, e, id);
    }
  }

  /** Resource `i` is still there with the same kind and contents. */
  ghost predicate Stays(t: Table, u: Table, i: int) {
    i in t.res && i in u.res && u.res[i].kind == t.res[i].kind && (i in t.order ==> i in u.order)
  }

  lemma OpenSameKind(t: Table, pid: nat, id: int, rtype: int, mode: int, i: int)
    requires pid in t.files && (forall j <- t.order :: j in t.res) && (t.descPool != [] ==> t.ptrPool != [])
    requires i in t.res
    ensures Stays(t, OpenExisting(t, pid, id, rtype, mode).table, i)
  {
  }

  lemma OpenResourceSameKind(t: Table, pid: nat, id: int, rtype: int, mode: int, i: int)
    requires OpenDefined(t, pid, id, rtype, mode) && i in t.order
    ensures Stays(t, R.OpenResource(t, pid, id, rtype, mode).table, i)
  {
    hide OpenExisting;
    if HasCreate(mode) && id !in t.order {
      var made := AddResource(t, id, Resource(rtype, [], Plain)).(resourceFree := t.resourceFree - 1);
      OpenSameKind(made, pid, id, rtype, mode, i);
    } else {
      OpenSameKind(t, pid, id, rtype, mode, i);
    }
  }

  lemma MqOpenSameKind(t: Table, pid: nat, id: int, rtype: int, mode: int, i: int)
    requires MqOpenDefined(t, pid, id, rtype, mode) && i in t.order
    ensures Stays(t, R.MqOpen(t, pid, id, rtype, mode).table, i)
  {
    hide OpenExisting, R.OpenResource;
    var u := t;
    if rtype != DSOS_MQ {
      u := R.OpenResource(t, pid, id, rtype, mode).table;
      OpenResourceShape(t, pid, id, rtype, mode);
      OpenResourceSameKind(t, pid, id, rtype, mode, i);
    }
    if mode == DSOS_CREATE && id !in u.order {
      OpenSameKind(MakeQueue(u, id), pid, id, rtype, mode, i);
    } else {
      OpenSameKind(u, pid, id, rtype, mode, i);
    }
  }

  lemma OpenCallSameKind(t: Table, u: Table, pid: nat, e: Event, id: int)
    requires TableCall(t, u, pid, e) && id in t.order && (e.OpenResource? || e.MqOpen?)
    ensures SameKind(t, u, id)
  {
    hide R.OpenResource, R.MqOpen, MqOpenDefined, OpenDefined;
    if e.OpenResource? {
      OpenResourceSameKind(t, pid, e.id, e.rtype, e.mode, id);
    } else {
      MqOpenSameKind(t, pid, e.id, e.rtype, e.mode, id);
    }
  }

  lemma Listed(t: Table, id: int)
    requires J.TableInv(t) && id in t.res
    ensures id in t.order
  {
  }

  lemma SendFifo(s: State, target: Option<int>, msg: int, id: int)
    requires P.CanRun(s.ps) && SendDefined(s.ps, s.rs, target) && IsQueue(s.rs, id)
    ensures var u := SendCall(s, target, msg).rs;
      && id in u.res && u.res[id].kind.Queue?
      && u.res[id].kind.messages == Messages(s.rs, id) + if target == Some(id) && !Full(s.rs, id) then [msg] else []
  {
    hide P.BlockOnQueue, P.Return, P.Allocated;
  }

  lemma ReceiveFifo(s: State, target: Option<int>, id: int)
    requires P.CanRun(s.ps) && ReceiveDefined(s.ps, s.rs, target) && IsQueue(s.rs, id)
    ensures var u := ReceiveCall(s, target).rs;
      && id in u.res && u.res[id].kind.Queue?
      && if target == Some(id) && !Empty(s.rs, id)
         then Messages(s.rs, id) != [] && Messages(s.rs, id) == [Messages(s.rs, id)[0]] + u.res[id].kind.messages
         else u.res[id].kind.messages == Messages(s.rs, id)
  {
    hide P.BlockOnQueue, P.Return, P.Allocated;
  }

  /** The queue that a send or receive is about. */
  ghost function Addressed(t: Table, me: nat, e: Event): Option<int>
    requires me in t.files && WellLinked(t)
  {
    if e.MqSend? || e.MqReceive? then Target(t, me, e.fd) else None
  }

  /** Queue `id` gains what is sent to it and loses what is received from it. */
  ghost predicate Balanced(t: Table, u: Table, e: Event, target: Option<int>, id: int) {
    && IsQueue(t, id) && id in u.res && u.res[id].kind.Queue?
    && if e.MqSend? && target == Some(id) && !Full(t, id)
       then u.res[id].kind.messages == Messages(t, id) + [e.msg]
       else if e.MqReceive? && target == Some(id) && !Empty(t, id)
       then Messages(t, id) != [] && Messages(t, id) == [Messages(t, id)[0]] + u.res[id].kind.messages
       else u.res[id].kind.messages == Messages(t, id)
  }

  lemma HandleFifo(s: State, e: Event, id: int)
    requires KernelInv(s) && !e.Tick? && CallDefined(s.ps, s.rs, e) && IsQueue(s.rs, id) && id in Handle(s, e).rs.res
    ensures Balanced(s.rs, Handle(s, e).rs, e, Addressed(s.rs, s.ps.running.value, e), id)
  {
    hide KernelInv, J.TableInv, TableCall, SendCall, ReceiveCall, P.Allocated;
    if e.MqSend? {
      SendFifo(s, Target(s.rs, s.ps.running.value, e.fd), e.msg, id);
    } else if e.MqReceive? {
      ReceiveFifo(s, Target(s.rs, s.ps.running.value, e.fd), id);
    } else {
      InvHalves(s);
      Listed(s.rs, id);
      HandleIsTableCall(s, e);
      TableCallSameKind(s.rs, Handle(s, e).rs, s.ps.running.value, e, id);
    }
  }

  /** What was queued, then what is sent, is what is received, then what is queued. */
  lemma StepFifo(s: State, e: Event, id: int)
    requires KernelInv(s) && Enabled(s, e) && IsQueue(s.rs, id) && IsQueue(Step(s, e).rs, id)
    ensures Messages(s.rs, id) + SentBy(s, e, id) == ReceivedBy(s, e, id) + Messages(Step(s, e).rs, id)
  {
    hide KernelInv, Handle;
    if !e.Tick? {
      RecordedInv(s, e);
      HandleFifo(s.(ps := Recorded(s.ps, e)), e, id);
    }
  }

  /** First in, first out, nothing lost and nothing twice: as long as the queue exists, whoever runs. */
  lemma {:induction false} Fifo(run: seq<State>, es: seq<Event>, id: int)
    requires IsRun(run, es) && KernelInv(run[0])
    requires forall i :: 0 <= i < |run| ==> IsQueue(run[i].rs, id)
    ensures Messages(run[0].rs, id) + Sent(run, es, id) == Received(run, es, id) + Messages(run[|es|].rs, id)
    decreases es
  {
    hide KernelInv, Step, Enabled;
    if es != [] {
      RunTail(run, es);
      StepFifo(run[0], es[0], id);
      StepKeepsInv(run[0], es[0]);
      Fifo(run[1..], es[1..], id);
      Splice(Messages(run[0].rs, id), SentBy(run[0], es[0], id), ReceivedBy(run[0], es[0], id),
             Messages(run[1].rs, id), Sent(run[1..], es[1..], id), Received(run[1..], es[1..], id),
             Messages(run[|es|].rs, id));
    }
  }

  lemma Splice(a: seq<int>, x: seq<int>, y: seq<int>, b: seq<int>, xs: seq<int>, ys: seq<int>, c: seq<int>)
    requires a + x == y + b && b + xs == ys + c
    ensures a + (x + xs) == (y + ys) + c
  {
    assert a + (x + xs) == (a + x) + xs;
    assert (y + b) + xs == y + (b + xs);
    assert y + (ys + c) == (y + ys) + c;
  }

  /** The receiver finds the oldest message in its second argument, and 0 as its return value. */
  lemma ReceiverGetsOldest(s: State, e: Event, id: int)
    requires KernelInv(s) && Enabled(s, e) && IsQueue(s.rs, id) && ReceivedBy(s, e, id) != []
    ensures var t, me := Step(s, e), s.ps.running.value;
      t.ps.running == Some(me) && me in t.ps.pcb && t.ps.pcb[me].args[1] == Messages(s.rs, id)[0]
        && t.ps.pcb[me].retvalue == 0
  {
    hide KernelInv;
    RecordedInv(s, e);
  }
}
