/** `num_msg` against the number of messages, and how many queues there can ever be. */
module QueueCounts {
  import opened Constants
  import opened Sequences
  import opened KernelSteps
  import opened KernelInvariant
  import opened TableCalls
  import opened Resources
  import P = Processes
  import J = ResourceInvariant
  import H = QueueHistory

  /** num_msg is the number of messages in every queue, live or stranded, and 0 in every free block. */
  ghost predicate Exact(t: Table) {
    && LiveExact(t)
    && (forall b <- t.queuePool :: b in t.numMsg && t.numMsg[b] == 0)
    && (forall b <- t.stranded :: b in t.numMsg && t.numMsg[b] == |t.stranded[b]|)
  }

  /** num_msg is the number of messages in every queue there is. */
  ghost predicate LiveExact(t: Table) {
    forall id <- t.res :: Tallied(t, id)
  }

  ghost predicate Tallied(t: Table, id: int)
    requires id in t.res
  {
    t.res[id].kind.Queue? ==>
      t.res[id].kind.block in t.numMsg && t.numMsg[t.res[id].kind.block] == |t.res[id].kind.messages|
  }

  /** Block `b` counts more messages than there are. */
  ghost predicate Stale(t: Table, b: nat) {
    || (b in t.numMsg && b in t.queuePool && t.numMsg[b] > 0)
    || (b in t.numMsg && b in t.stranded && t.numMsg[b] > |t.stranded[b]|)
    || exists id <- t.res :: Overcounted(t, id, b)
  }

  ghost predicate Overcounted(t: Table, id: int, b: nat)
    requires id in t.res
  {
    && t.res[id].kind.Queue? && t.res[id].kind.block == b
    && b in t.numMsg && t.numMsg[b] > |t.res[id].kind.messages|
  }

  lemma InexactIsStale(t: Table)
    requires J.TableInv(t)
    ensures !Exact(t) <==> exists b: nat :: Stale(t, b)
  {
    hide J.Names, J.Owned, J.Crossed, J.Pooled, J.Books;
    if !Exact(t) {
      if id :| id in t.res && !Tallied(t, id) {
        assert J.Bounded(t.res[id], t.queuePool, t.stranded, t.numMsg);
        assert Overcounted(t, id, t.res[id].kind.block) && Stale(t, t.res[id].kind.block);
      } else if b :| b in t.queuePool && t.numMsg[b] != 0 {
        assert Stale(t, b);
      } else {
        var b :| b in t.stranded && t.numMsg[b] != |t.stranded[b]|;
        assert Stale(t, b);
      }
    }
    if b: nat :| Stale(t, b) {
      if id :| id in t.res && Overcounted(t, id, b) {
        assert !Tallied(t, id);
      }
    }
  }

  // ---------- which calls change the queues ----------

  ghost predicate Creates(t: Table, e: Event) {
    && e.MqOpen? && e.rtype == DSOS_MQ && e.mode == DSOS_CREATE && e.id !in t.order
    && t.queuePool != [] && t.resourceFree > 0
  }

  ghost predicate IsIdleQueue(t: Table, id: int) {
    id in t.order && id in t.res && t.res[id].ptrs == [] && t.res[id].kind.Queue?
  }

  ghost predicate Unlinks(t: Table, e: Event) { e.MqUnlink? && IsIdleQueue(t, e.id) }

  ghost predicate Strands(t: Table, e: Event) { e.DestroyResource? && IsIdleQueue(t, e.id) }

  /** An unlink that succeeds on a queue with messages left in it. */
  ghost predicate DropsMessages(t: Table, e: Event) {
    Unlinks(t, e) && t.res[e.id].kind.messages != []
  }

  /** mq_open builds a queue on a block whose num_msg is not 0. */
  ghost predicate InheritsCount(t: Table, e: Event) {
    Creates(t, e) && t.queuePool[0] in t.numMsg && t.numMsg[t.queuePool[0]] != 0
  }

  /** The same queues with the same contents and counts. */
  ghost predicate SameQueues(t: Table, u: Table) {
    && u.numMsg == t.numMsg && u.queuePool == t.queuePool
    && u.stranded == t.stranded && u.lostMessages == t.lostMessages
    && (forall id <- t.res :: t.res[id].kind.Queue? ==> id in u.res && u.res[id].kind == t.res[id].kind)
    && (forall id <- u.res :: u.res[id].kind.Queue? ==> id in t.res && t.res[id].kind == u.res[id].kind)
  }

  lemma SameExact(t: Table, u: Table)
    requires SameQueues(t, u)
    ensures LiveExact(u) <==> LiveExact(t)
    ensures Exact(u) <==> Exact(t)
  {
    if LiveExact(t) {
      assert forall id <- u.res :: id in t.res ==> Tallied(t, id);
    }
    if LiveExact(u) {
      assert forall id <- t.res :: id in u.res ==> Tallied(u, id);
    }
  }

  lemma SameStale(t: Table, u: Table, b: nat)
    requires SameQueues(t, u) && Stale(t, b)
    ensures Stale(u, b)
  {
    if id :| id in t.res && Overcounted(t, id, b) {
      assert Overcounted(u, id, b);
    }
  }

  lemma SameThenSame(t: Table, u: Table, v: Table)
    requires SameQueues(t, u) && SameQueues(u, v)
    ensures SameQueues(t, v)
  {
  }

  lemma OpenExistingSame(t: Table, pid: nat, id: int, rtype: int, mode: int)
    requires pid in t.files && (forall i <- t.order :: i in t.res) && (t.descPool != [] ==> t.ptrPool != [])
    ensures SameQueues(t, OpenExisting(t, pid, id, rtype, mode).table)
  {
  }

  lemma OpenResourceSame(t: Table, pid: nat, id: int, rtype: int, mode: int)
    requires J.TableInv(t) && OpenDefined(t, pid, id, rtype, mode)
    ensures SameQueues(t, Resources.OpenResource(t, pid, id, rtype, mode).table)
  {
    hide OpenExisting, J.Owned, J.Crossed, J.Pooled, J.Queued, J.Books;
    if HasCreate(mode) && id !in t.order {
      var made := AddResource(t, id, Resource(rtype, [], Plain)).(resourceFree := t.resourceFree - 1);
      OpenExistingSame(made, pid, id, rtype, mode);
      SameThenSame(t, made, OpenExisting(made, pid, id, rtype, mode).table);
    } else {
      OpenExistingSame(t, pid, id, rtype, mode);
    }
  }

  lemma MqOpenSame(t: Table, pid: nat, id: int, rtype: int, mode: int)
    requires J.TableInv(t) && MqOpenDefined(t, pid, id, rtype, mode)
    ensures var u, e := Resources.MqOpen(t, pid, id, rtype, mode).table, KernelSteps.MqOpen(id, rtype, mode);
      if Creates(t, e) then SameQueues(MakeQueue(t, id), u) else SameQueues(t, u)
  {
    hide OpenExisting, Resources.OpenResource, J.TableInv, SameQueues;
    if rtype != DSOS_MQ {
      var u := Resources.OpenResource(t, pid, id, rtype, mode).table;
      OpenResourceShape(t, pid, id, rtype, mode);
      OpenResourceSame(t, pid, id, rtype, mode);
      if mode != DSOS_CREATE {
        OpenExistingSame(u, pid, id, rtype, mode);
        SameThenSame(t, u, OpenExisting(u, pid, id, rtype, mode).table);
      }
    } else if mode == DSOS_CREATE && id !in t.order {
      OpenExistingSame(MakeQueue(t, id), pid, id, rtype, mode);
    } else if mode != DSOS_CREATE {
      OpenExistingSame(t, pid, id, rtype, mode);
    } else {
      SameFiles(t, t);
    }
  }

  lemma SameFiles(t: Table, u: Table)
    requires u == t.(files := u.files)
    ensures SameQueues(t, u)
  {
  }

  lemma CloseSame(t: Table, pid: nat, fd: int)
    requires pid in t.files && WellLinked(t)
    ensures SameQueues(t, Close(t, pid, fd).table)
  {
    hide ByFd, Minus;
  }

  lemma DestroySame(t: Table, id: int)
    requires WellLinked(t) && !IsIdleQueue(t, id)
    ensures SameQueues(t, Destroy(t, id).table)
  {
    hide Minus;
  }

  lemma CloseAllSame(t: Table, pid: nat, ds: seq<nat>)
    requires pid in t.files && NoDup(ds) && forall d <- ds :: d in t.desc && t.desc[d].rid in t.res
    ensures SameQueues(t, CloseAll(t, pid, ds))
  {
    hide NoDup, CloseAll;
    var u := CloseAll(t, pid, ds);
    H.CloseAllSameKind(t, pid, ds, 0);
    forall id <- t.res ensures u.res[id].kind == t.res[id].kind {
      H.CloseAllSameKind(t, pid, ds, id);
    }
  }

  /** What each call that sends and receives nothing does to the queues. */
  lemma TableCallQueues(t: Table, u: Table, pid: nat, e: Event)
    requires J.TableInv(t) && TableCall(t, u, pid, e)
    ensures if Creates(t, e) then SameQueues(MakeQueue(t, e.id), u)
            else if Unlinks(t, e) then UnlinkDefined(t, e.id) && u == Resources.MqUnlink(t, e.id).table
            else if Strands(t, e) then WellLinked(t) && u == Destroy(t, e.id).table
            else SameQueues(t, u)
  {
    hide J.TableInv, Resources.OpenResource, Resources.MqOpen, MqOpenDefined, OpenDefined, NoDup, CloseAll, SameQueues;
    if e.OpenResource? {
      OpenResourceSame(t, pid, e.id, e.rtype, e.mode);
    } else if e.MqOpen? {
      MqOpenSame(t, pid, e.id, e.rtype, e.mode);
    } else if e.Exit? {
      CloseAllSame(t, pid, t.files[pid].descs);
      SameFiles(if u == t then t else CloseAll(t, pid, t.files[pid].descs), u);
      SameThenSame(t, if u == t then t else CloseAll(t, pid, t.files[pid].descs), u) by { SameFiles(t, t); }
    } else if e.CloseResource? || e.MqClose? {
      CloseSame(t, pid, e.fd);
    } else if e.DestroyResource? {
      if !IsIdleQueue(t, e.id) {
        DestroySame(t, e.id);
      }
    } else if e.MqUnlink? {
      SameFiles(t, t);
    } else {
      SameFiles(t, u);
    }
  }

  // ---------- counts stay exact ----------

  lemma MakeQueueExact(t: Table, id: int)
    requires J.TableInv(t) && id !in t.order && t.queuePool != [] && t.resourceFree > 0 && Exact(t)
    ensures Exact(MakeQueue(t, id))
  {
    hide J.Owned, J.Crossed, J.Pooled, J.Queued, J.Books;
    var u := MakeQueue(t, id);
    assert t.queuePool[0] in t.queuePool;
    forall i <- u.res ensures Tallied(u, i) {
      assert i != id ==> Tallied(t, i);
    }
  }

  lemma UnlinkExact(t: Table, id: int)
    requires UnlinkDefined(t, id) && IsIdleQueue(t, id) && Exact(t)
    ensures Exact(Resources.MqUnlink(t, id).table) <==> t.res[id].kind.messages == []
  {
    var u := Resources.MqUnlink(t, id).table;
    forall i <- u.res ensures Tallied(u, i) {
      assert Tallied(t, i);
    }
    assert Tallied(t, id) && t.res[id].kind.block in u.queuePool;
  }

  lemma StrandExact(t: Table, id: int)
    requires WellLinked(t) && IsIdleQueue(t, id) && Exact(t)
    ensures Exact(Destroy(t, id).table)
  {
    var u := Destroy(t, id).table;
    forall i <- u.res ensures Tallied(u, i) {
      assert Tallied(t, i);
    }
    assert Tallied(t, id);
  }

  /** Of these calls exactly those unlinks spoil the counts. */
  lemma TableCallExact(t: Table, u: Table, pid: nat, e: Event)
    requires J.TableInv(t) && Exact(t) && TableCall(t, u, pid, e)
    ensures Exact(u) <==> !DropsMessages(t, e)
  {
    hide J.TableInv, Exact, TableCall, SameQueues;
    TableCallQueues(t, u, pid, e);
    if Creates(t, e) {
      MakeQueueExact(t, e.id);
      SameExact(MakeQueue(t, e.id), u);
    } else if Unlinks(t, e) {
      UnlinkExact(t, e.id);
    } else if Strands(t, e) {
      StrandExact(t, e.id);
    } else {
      SameExact(t, u);
    }
  }

  /** Sending and receiving move the count with the contents. */
  lemma SetQueueCounts(t: Table, id: int, messages: seq<int>, count: nat, free: nat)
    requires J.TableInv(t) && IsQueue(t, id) && count - |messages| == Count(t, id) - |Messages(t, id)|
    ensures var u := SetQueue(t, id, messages, count).(messageFree := free);
      && (LiveExact(t) ==> LiveExact(u)) && (Exact(t) ==> Exact(u))
      && (forall b: nat :: Stale(t, b) ==> Stale(u, b))
  {
    hide J.Names, J.Owned, J.Crossed, J.Pooled, J.Books;
    var u := SetQueue(t, id, messages, count).(messageFree := free);
    assert J.Bounded(t.res[id], t.queuePool, t.stranded, t.numMsg);
    if LiveExact(t) {
      forall i <- u.res ensures Tallied(u, i) {
        assert Tallied(t, i) && Tallied(t, id);
        assert J.SameBlock(t.res[i], t.res[id]) ==> i == id;
      }
    }
    forall b: nat | Stale(t, b) ensures Stale(u, b) {
      if i :| i in t.res && Overcounted(t, i, b) {
        assert J.SameBlock(t.res[i], t.res[id]) ==> i == id;
        assert Overcounted(u, i, b);
      }
    }
  }

  /** Exact counts and stale blocks survive a call that only moves messages. */
  ghost predicate CountsKept(t: Table, u: Table) {
    (LiveExact(t) ==> LiveExact(u)) && (Exact(t) ==> Exact(u)) && forall b: nat :: Stale(t, b) ==> Stale(u, b)
  }

  lemma SendCounts(s: State, target: Option<int>, msg: int)
    requires J.TableInv(s.rs) && P.CanRun(s.ps) && SendDefined(s.ps, s.rs, target)
    ensures CountsKept(s.rs, SendCall(s, target, msg).rs)
  {
    hide J.TableInv, Exact, Stale, P.BlockOnQueue, P.Return, P.Allocated;
    if target.Some? && !Full(s.rs, target.value) {
      var id := target.value;
      SetQueueCounts(s.rs, id, Messages(s.rs, id) + [msg], Count(s.rs, id) + 1, s.rs.messageFree - 1);
    }
  }

  lemma ReceiveCounts(s: State, target: Option<int>)
    requires J.TableInv(s.rs) && P.CanRun(s.ps) && ReceiveDefined(s.ps, s.rs, target)
    ensures CountsKept(s.rs, ReceiveCall(s, target).rs)
  {
    hide J.TableInv, Exact, Stale, P.BlockOnQueue, P.Return, P.Allocated;
    if target.Some? && !Empty(s.rs, target.value) {
      var id := target.value;
      SetQueueCounts(s.rs, id, Messages(s.rs, id)[1..], Count(s.rs, id) - 1, s.rs.messageFree + 1);
    }
  }

  lemma TalliedCount(t: Table, id: int)
    requires LiveExact(t) && IsQueue(t, id)
    ensures Count(t, id) == |Messages(t, id)|
  {
    assert Tallied(t, id);
  }

  /** Counts stay exact through a step unless it unlinks a queue that still holds messages; then they do not. */
  lemma StepExact(s: State, e: Event)
    requires KernelInv(s) && Enabled(s, e) && Exact(s.rs)
    ensures Exact(Step(s, e).rs) <==> !DropsMessages(s.rs, e)
  {
    hide KernelInv, J.TableInv, Exact, Stale, TableCall, SendCall, ReceiveCall, DropsMessages;
    if !e.Tick? {
      RecordedInv(s, e);
      InvHalves(s);
      var r := s.(ps := Recorded(s.ps, e));
      if e.MqSend? {
        SendCounts(r, Target(s.rs, s.ps.running.value, e.fd), e.msg);
      } else if e.MqReceive? {
        ReceiveCounts(r, Target(s.rs, s.ps.running.value, e.fd));
      } else {
        HandleIsTableCall(r, e);
        TableCallExact(s.rs, Handle(r, e).rs, s.ps.running.value, e);
      }
      assert !e.MqUnlink? ==> !DropsMessages(s.rs, e) by { OnlyUnlinksDrop(s.rs, e); }
    } else {
      OnlyUnlinksDrop(s.rs, e);
    }
  }

  lemma OnlyUnlinksDrop(t: Table, e: Event)
    ensures DropsMessages(t, e) ==> e.MqUnlink?
  {
  }

  // ---------- counts of live queues ----------

  lemma MakeQueueLive(t: Table, id: int)
    requires J.TableInv(t) && id !in t.order && t.queuePool != [] && t.resourceFree > 0 && LiveExact(t)
    ensures t.queuePool[0] in t.numMsg
    ensures LiveExact(MakeQueue(t, id)) <==> t.numMsg[t.queuePool[0]] == 0
  {
    hide J.Owned, J.Crossed, J.Pooled, J.Books;
    var u, b := MakeQueue(t, id), t.queuePool[0];
    assert b in t.queuePool;
    forall i <- u.res ensures i != id ==> Tallied(u, i) {
      assert i != id ==> Tallied(t, i);
    }
    assert Tallied(u, id) <==> t.numMsg[b] == 0;
  }

  lemma ForgottenLive(t: Table, u: Table, id: int)
    requires LiveExact(t) && u.res == t.res - {id} && u.numMsg == t.numMsg
    ensures LiveExact(u)
  {
    forall i <- u.res ensures Tallied(u, i) {
      assert Tallied(t, i);
    }
  }

  lemma TableCallLive(t: Table, u: Table, pid: nat, e: Event)
    requires J.TableInv(t) && LiveExact(t) && TableCall(t, u, pid, e)
    ensures LiveExact(u) <==> !InheritsCount(t, e)
  {
    hide J.TableInv, LiveExact, TableCall, SameQueues;
    TableCallQueues(t, u, pid, e);
    if Creates(t, e) {
      MakeQueueLive(t, e.id);
      SameExact(MakeQueue(t, e.id), u);
    } else if Unlinks(t, e) || Strands(t, e) {
      ForgottenLive(t, u, e.id);
    } else {
      SameExact(t, u);
    }
  }

  /** Counts of live queues stay exact through a step unless it creates a queue on a block that counts messages,
      which can be seen before the call; then they do not. */
  lemma StepLiveExact(s: State, e: Event)
    requires KernelInv(s) && Enabled(s, e) && LiveExact(s.rs)
    ensures LiveExact(Step(s, e).rs) <==> !InheritsCount(s.rs, e)
  {
    hide KernelInv, J.TableInv, Exact, LiveExact, Stale, TableCall, SendCall, ReceiveCall;
    if !e.Tick? {
      RecordedInv(s, e);
      InvHalves(s);
      var r := s.(ps := Recorded(s.ps, e));
      if e.MqSend? {
        SendCounts(r, Target(s.rs, s.ps.running.value, e.fd), e.msg);
      } else if e.MqReceive? {
        ReceiveCounts(r, Target(s.rs, s.ps.running.value, e.fd));
      } else {
        HandleIsTableCall(r, e);
        TableCallLive(s.rs, Handle(r, e).rs, s.ps.running.value, e);
      }
    }
  }

  /** The counts of all queues are exact in every state of a run if and only if no mq_open of the run inherited one. */
  lemma {:induction false} RunLiveExact(run: seq<State>, es: seq<Event>)
    requires IsRun(run, es) && KernelInv(run[0]) && LiveExact(run[0].rs)
    ensures (forall k :: 0 <= k <= |es| ==> LiveExact(run[k].rs)) <==>
      (forall i :: 0 <= i < |es| ==> !InheritsCount(run[i].rs, es[i]))
    decreases es
  {
    hide KernelInv, LiveExact, InheritsCount, Enabled, Step;
    if es != [] {
      RunTail(run, es);
      StepKeepsInv(run[0], es[0]);
      StepLiveExact(run[0], es[0]);
      if LiveExact(run[1].rs) {
        RunLiveExact(run[1..], es[1..]);
        AllShifted(run, es);
      }
    }
  }

  lemma AllShifted(run: seq<State>, es: seq<Event>)
    requires |run| == |es| + 1 && es != [] && LiveExact(run[0].rs) && !InheritsCount(run[0].rs, es[0])
    ensures (forall k :: 0 <= k <= |es| ==> LiveExact(run[k].rs)) <==>
      (forall k :: 0 <= k <= |es[1..]| ==> LiveExact(run[1..][k].rs))
    ensures (forall i :: 0 <= i < |es| ==> !InheritsCount(run[i].rs, es[i])) <==>
      (forall i :: 0 <= i < |es[1..]| ==> !InheritsCount(run[1..][i].rs, es[1..][i]))
  {
    hide LiveExact, InheritsCount;
    if forall k :: 0 <= k <= |es[1..]| ==> LiveExact(run[1..][k].rs) {
      forall k | 0 <= k <= |es| ensures LiveExact(run[k].rs) {
        assert k > 0 ==> run[k] == run[1..][k - 1];
      }
    }
    if forall i :: 0 <= i < |es[1..]| ==> !InheritsCount(run[1..][i].rs, es[1..][i]) {
      forall i | 0 <= i < |es| ensures !InheritsCount(run[i].rs, es[i]) {
        assert i > 0 ==> run[i] == run[1..][i - 1] && es[i] == es[1..][i - 1];
      }
    }
  }

  // ---------- stale counts never heal ----------

  lemma MakeQueueStale(t: Table, id: int, b: nat)
    requires J.TableInv(t) && id !in t.order && t.queuePool != [] && t.resourceFree > 0 && Stale(t, b)
    ensures Stale(MakeQueue(t, id), b)
  {
    hide J.Owned, J.Crossed, J.Pooled, J.Books;
    var u := MakeQueue(t, id);
    if b in t.queuePool {
      if b == t.queuePool[0] {
        assert Overcounted(u, id, b);
      }
    } else if i :| i in t.res && Overcounted(t, i, b) {
      assert Overcounted(u, i, b);
    }
  }

  lemma ForgottenStale(t: Table, id: int, u: Table, b: nat)
    requires IsIdleQueue(t, id) && Stale(t, b) && u.res == t.res - {id} && u.numMsg == t.numMsg && J.TableInv(t)
    requires J.Retired(t.res[id], t, u)
    ensures Stale(u, b)
  {
    hide J.Names, J.Owned, J.Crossed, J.Pooled, J.Books;
    assert J.Bounded(t.res[id], t.queuePool, t.stranded, t.numMsg);
    if i :| i in t.res && Overcounted(t, i, b) {
      assert i != id ==> Overcounted(u, i, b);
    }
  }

  lemma TableCallStale(t: Table, u: Table, pid: nat, e: Event, b: nat)
    requires J.TableInv(t) && Stale(t, b) && TableCall(t, u, pid, e)
    ensures Stale(u, b)
  {
    hide J.TableInv, Stale, TableCall, SameQueues;
    TableCallQueues(t, u, pid, e);
    if Creates(t, e) {
      MakeQueueStale(t, e.id, b);
      SameStale(MakeQueue(t, e.id), u, b);
    } else if Unlinks(t, e) || Strands(t, e) {
      ForgottenStale(t, e.id, u, b);
    } else {
      SameStale(t, u, b);
    }
  }

  /** No step lowers a count that is too high. */
  lemma StepStale(s: State, e: Event, b: nat)
    requires KernelInv(s) && Enabled(s, e) && Stale(s.rs, b)
    ensures Stale(Step(s, e).rs, b)
  {
    hide KernelInv, J.TableInv, Exact, Stale, TableCall, SendCall, ReceiveCall;
    if !e.Tick? {
      RecordedInv(s, e);
      InvHalves(s);
      var r := s.(ps := Recorded(s.ps, e));
      if e.MqSend? {
        SendCounts(r, Target(s.rs, s.ps.running.value, e.fd), e.msg);
      } else if e.MqReceive? {
        ReceiveCounts(r, Target(s.rs, s.ps.running.value, e.fd));
      } else {
        HandleIsTableCall(r, e);
        TableCallStale(s.rs, Handle(r, e).rs, s.ps.running.value, e, b);
      }
    }
  }

  /** Along a run counts are exact in a state if and only if no unlink before it dropped messages. */
  lemma {:induction false} RunExact(run: seq<State>, es: seq<Event>, k: nat)
    requires IsRun(run, es) && KernelInv(run[0]) && Exact(run[0].rs) && k <= |es|
    ensures Exact(run[k].rs) <==> forall i :: 0 <= i < k ==> !DropsMessages(run[i].rs, es[i])
  {
    hide KernelInv, J.TableInv, Exact, Stale, Step, DropsMessages, Enabled;
    if k > 0 {
      RunExact(run, es, k - 1);
      RunKeepsInv(run, es, k - 1);
      RunStep(run, es, k - 1);
      if Exact(run[k - 1].rs) {
        StepExact(run[k - 1], es[k - 1]);
      } else {
        StaysInexact(run[k - 1], es[k - 1]);
      }
    }
  }

  lemma StaysInexact(s: State, e: Event)
    requires KernelInv(s) && Enabled(s, e) && !Exact(s.rs)
    ensures !Exact(Step(s, e).rs)
  {
    hide KernelInv, J.TableInv, Exact, Stale, Step, Enabled;
    InvHalves(s);
    InexactIsStale(s.rs);
    var b: nat :| Stale(s.rs, b);
    StepStale(s, e, b);
    StepKeepsInv(s, e);
    InvHalves(Step(s, e));
    InexactIsStale(Step(s, e).rs);
  }

  /** With exact counts of live queues a receive never finds num_msg positive and the list empty. */
  lemma ReceiveIsSafe(s: State, fd: int)
    requires KernelInv(s) && LiveExact(s.rs) && P.CanRun(s.ps) && WellLinked(s.rs) && s.ps.ready != []
    requires s.ps.running.value in s.rs.files
    requires var target := Target(s.rs, s.ps.running.value, fd); target.Some? ==> IsQueue(s.rs, target.value)
    ensures ReceiveDefined(s.ps, s.rs, Target(s.rs, s.ps.running.value, fd))
  {
    hide KernelInv, LiveExact, P.Allocated;
    var target := Target(s.rs, s.ps.running.value, fd);
    if target.Some? {
      TalliedCount(s.rs, target.value);
    }
  }

  /** After such an unlink the call that creates the next queue, if a descriptor is left, succeeds, and the queue
      claims messages it does not have. */
  lemma StaleCount(t: Table, pid: nat, id: int, next: int)
    requires J.TableInv(t) && UnlinkDefined(t, id) && DropsMessages(t, KernelSteps.MqUnlink(id))
    requires pid in t.files && t.resourceFree > 0 && t.descPool != [] && (next == id || next !in t.order)
    ensures var u := Resources.MqUnlink(t, id).table;
      && MqOpenDefined(u, pid, next, DSOS_MQ, DSOS_CREATE)
      && var out := Resources.MqOpen(u, pid, next, DSOS_MQ, DSOS_CREATE);
         && out.code >= 0 && IsQueue(out.table, next)
         && Count(out.table, next) == Count(t, id) > 0 && Messages(out.table, next) == []
  {
    hide J.TableInv, Minus, NoDup;
    StaleUnlink(t, id, next);
    J.MqUnlinkKeeps(t, id);
    J.InvLinked(Resources.MqUnlink(t, id).table);
  }

  lemma StaleUnlink(t: Table, id: int, next: int)
    requires J.TableInv(t) && UnlinkDefined(t, id) && DropsMessages(t, KernelSteps.MqUnlink(id))
    requires next == id || next !in t.order
    ensures var u, b := Resources.MqUnlink(t, id).table, t.res[id].kind.block;
      && u == t.(order := u.order, res := u.res, queuePool := [b] + t.queuePool, messageFree := u.messageFree)
      && next !in u.order && IsQueue(t, id) && b in t.numMsg && t.numMsg[b] > 0
  {
    hide J.Owned, J.Crossed, J.Pooled, J.Books;
    assert J.Bounded(t.res[id], t.queuePool, t.stranded, t.numMsg);
  }

  // ---------- how many queues there can be ----------

  lemma MqOpenMade(t: Table, pid: nat, id: int, rtype: int, mode: int)
    requires MqOpenDefined(t, pid, id, rtype, mode)
    ensures Resources.MqOpen(t, pid, id, rtype, mode).table.queuesMade
      == t.queuesMade + if Creates(t, KernelSteps.MqOpen(id, rtype, mode)) then 1 else 0
  {
    if rtype != DSOS_MQ {
      OpenResourceShape(t, pid, id, rtype, mode);
    }
  }

  lemma TableCallMade(t: Table, u: Table, pid: nat, e: Event)
    requires TableCall(t, u, pid, e)
    ensures u.queuesMade == t.queuesMade + if Creates(t, e) then 1 else 0
  {
    hide Resources.MqOpen, MqOpenDefined, OpenDefined, NoDup, CloseAll, Minus, ByFd;
    if e.MqOpen? {
      MqOpenMade(t, pid, e.id, e.rtype, e.mode);
    } else if e.Exit? {
      H.CloseAllSameKind(t, pid, t.files[pid].descs, 0);
    }
  }

  lemma StepMade(s: State, e: Event)
    requires KernelInv(s) && Enabled(s, e)
    ensures Step(s, e).rs.queuesMade == s.rs.queuesMade + if Creates(s.rs, e) then 1 else 0
  {
    hide KernelInv, TableCall, P.Schedule, P.BlockOnQueue;
    if !e.Tick? && !e.MqSend? && !e.MqReceive? {
      RecordedInv(s, e);
      var r := s.(ps := Recorded(s.ps, e));
      HandleIsTableCall(r, e);
      TableCallMade(s.rs, Handle(r, e).rs, s.ps.running.value, e);
    }
  }

  /** How many events of the run create a queue. */
  ghost function Creations(run: seq<State>, es: seq<Event>): nat
    requires |run| == |es| + 1
  {
    if es == [] then 0 else (if Creates(run[0].rs, es[0]) then 1 else 0) + Creations(run[1..], es[1..])
  }

  lemma {:induction false} CreationsAddUp(run: seq<State>, es: seq<Event>)
    requires IsRun(run, es) && KernelInv(run[0])
    ensures run[|es|].rs.queuesMade == run[0].rs.queuesMade + Creations(run, es)
    decreases es
  {
    hide KernelInv, Creates, Step, Enabled;
    if es != [] {
      RunTail(run, es);
      StepKeepsInv(run[0], es[0]);
      StepMade(run[0], es[0]);
      CreationsAddUp(run[1..], es[1..]);
    }
  }

  /** The Resource blocks that queues use up never come back, so no run from boot can create more than 1024. */
  lemma CreationsBounded(run: seq<State>, es: seq<Event>)
    requires IsRun(run, es) && run[0] == Booted()
    ensures Creations(run, es) + run[|es|].rs.resourceFree <= MAX_NUM_RESOURCES
  {
    hide KernelInv, IsRun, Creations, J.TableInv;
    BootedInv();
    RunLength(run, es);
    CreationsAddUp(run, es);
    RunKeepsInv(run, es, |es|);
    InvHalves(run[|es|]);
    MadeAccount(run[|es|].rs);
  }

  lemma RunLength(run: seq<State>, es: seq<Event>)
    requires IsRun(run, es)
    ensures |run| == |es| + 1
  {
  }

  /** Free Resource blocks, plain resources and queues ever made are 1024; so are free queue blocks, live queues and
      stranded ones. */
  lemma MadeAccount(t: Table)
    requires J.TableInv(t)
    ensures t.resourceFree + J.Total(J.Plains, t.order, t.res) + t.queuesMade == MAX_NUM_RESOURCES
    ensures |t.queuePool| + J.Total(J.Queues, t.order, t.res) + |t.stranded| == MAX_NUM_RESOURCES
  {
    hide J.Names, J.Owned, J.Crossed, J.Pooled, J.Queued;
    forall k ensures J.Total(k, t.order, t.res) + J.SpareIn(k, t) == MAX_NUM_RESOURCES {
      assert J.Counted(k, t.order, t.res, J.SpareIn(k, t));
    }
    assert J.SpareIn(J.Plains, t) == t.resourceFree + t.queuesMade;
  }
}
