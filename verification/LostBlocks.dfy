/** Message and queue blocks that no pool ever gets back: those of queues destroyed as plain resources. */
module LostBlocks {
  import opened Constants
  import opened KernelSteps
  import opened KernelInvariant
  import opened TableCalls
  import opened Resources
  import P = Processes
  import J = ResourceInvariant
  import Q = QueueCounts

  /** A destroy that succeeds on a queue with messages left in it. */
  ghost predicate LosesMessages(t: Table, e: Event) {
    Q.Strands(t, e) && t.res[e.id].kind.messages != []
  }

  /** How many messages `e` loses. */
  ghost function Loss(t: Table, e: Event): nat {
    if Q.Strands(t, e) then |t.res[e.id].kind.messages| else 0
  }

  /** What `e` makes of the stranded blocks. */
  ghost function StrandedBy(t: Table, e: Event): map<nat, seq<int>> {
    if Q.Strands(t, e) then t.stranded[t.res[e.id].kind.block := t.res[e.id].kind.messages] else t.stranded
  }

  lemma TableCallLoss(t: Table, u: Table, pid: nat, e: Event)
    requires J.TableInv(t) && TableCall(t, u, pid, e)
    ensures u.lostMessages == t.lostMessages + Loss(t, e) && u.stranded == StrandedBy(t, e)
  {
    hide J.TableInv, TableCall;
    Q.TableCallQueues(t, u, pid, e);
  }

  /** Only a destroy of a queue loses messages or strands a block: those of that queue. */
  lemma StepLoss(s: State, e: Event)
    requires KernelInv(s) && Enabled(s, e)
    ensures Step(s, e).rs.lostMessages == s.rs.lostMessages + Loss(s.rs, e)
    ensures Step(s, e).rs.stranded == StrandedBy(s.rs, e)
  {
    hide KernelInv, J.TableInv, TableCall, P.Schedule, P.BlockOnQueue, P.Exit, P.Wait, P.Sleep, P.Spawn, P.Heir;
    hide P.Allocated, WellLinked, ExitCall, WaitCall, SpawnCall;
    if !e.Tick? && !e.MqSend? && !e.MqReceive? {
      RecordedInv(s, e);
      InvHalves(s);
      var r := s.(ps := Recorded(s.ps, e));
      HandleIsTableCall(r, e);
      TableCallLoss(s.rs, Handle(r, e).rs, s.ps.running.value, e);
    }
  }

  // ---------- message blocks ----------

  /** Every message block is free or in a queue. */
  ghost predicate MessagesKept(t: Table) {
    t.messageFree + J.Total(J.Texts, t.order, t.res) == MAX_NUM_RESOURCES
  }

  lemma KeptMeansNoneLost(t: Table)
    requires J.TableInv(t)
    ensures t.messageFree + J.Total(J.Texts, t.order, t.res) + t.lostMessages == MAX_NUM_RESOURCES
    ensures |t.queuePool| + J.Total(J.Queues, t.order, t.res) + |t.stranded| == MAX_NUM_RESOURCES
    ensures MessagesKept(t) <==> t.lostMessages == 0
    ensures QueuesKept(t) <==> t.stranded == map[]
  {
    hide J.Names, J.Owned, J.Crossed, J.Pooled, J.Queued;
    assert J.Counted(J.Texts, t.order, t.res, J.SpareIn(J.Texts, t));
    assert J.Counted(J.Queues, t.order, t.res, J.SpareIn(J.Queues, t));
  }

  /** Along a run all message blocks are accounted for if and only if they were at its start and no destroy since
      has lost any. */
  lemma {:induction false} RunKeepsMessages(run: seq<State>, es: seq<Event>, k: nat)
    requires IsRun(run, es) && KernelInv(run[0]) && k <= |es|
    ensures MessagesKept(run[k].rs) <==>
      MessagesKept(run[0].rs) && forall i :: 0 <= i < k ==> !LosesMessages(run[i].rs, es[i])
  {
    hide KernelInv, MessagesKept, QueuesKept, Step, Enabled, J.TableInv, LosesMessages;
    RunKeepsInv(run, es, k);
    InvHalves(run[k]);
    KeptMeansNoneLost(run[k].rs);
    if k > 0 {
      RunKeepsMessages(run, es, k - 1);
      RunKeepsInv(run, es, k - 1);
      InvHalves(run[k - 1]);
      KeptMeansNoneLost(run[k - 1].rs);
      RunStep(run, es, k - 1);
      StepLoss(run[k - 1], es[k - 1]);
      LossIsSome(run[k - 1].rs, es[k - 1]);
    }
  }

  lemma LossIsSome(t: Table, e: Event)
    ensures LosesMessages(t, e) <==> Loss(t, e) > 0
  {
  }

  /** How many messages the events of the run lose. */
  ghost function Losses(run: seq<State>, es: seq<Event>): nat
    requires |run| == |es| + 1
  {
    if es == [] then 0 else Loss(run[0].rs, es[0]) + Losses(run[1..], es[1..])
  }

  lemma {:induction false} LossesAddUp(run: seq<State>, es: seq<Event>)
    requires IsRun(run, es) && KernelInv(run[0])
    ensures run[|es|].rs.lostMessages == run[0].rs.lostMessages + Losses(run, es)
    decreases es
  {
    hide KernelInv, Step, Enabled, Loss;
    if es != [] {
      RunTail(run, es);
      StepKeepsInv(run[0], es[0]);
      StepLoss(run[0], es[0]);
      LossesAddUp(run[1..], es[1..]);
    }
  }

  lemma {:induction false} TotalBound(order: seq<int>, res: map<int, Resource>)
    requires forall id <- order :: id in res ==> J.Weight(J.Texts, res[id]) <= MQ_MAX_MSG_SIZE
    ensures J.Total(J.Texts, order, res) <= 10 * J.Total(J.Queues, order, res)
  {
    if order != [] {
      assert forall id <- order[1..] :: id in order;
      TotalBound(order[1..], res);
      var id := order[0];
      assert id in order;
    }
  }

  /** After any run from boot, free blocks, queued messages and the messages that its destroys lost make 1024. So a
      block is free, and the unchecked allocation of internal_mqSend succeeds, as long as ten for each queue and the
      lost ones are fewer. */
  lemma MessageAvailable(run: seq<State>, es: seq<Event>)
    requires IsRun(run, es) && run[0] == Booted()
    ensures |run| == |es| + 1
    ensures var t := run[|es|].rs;
      && t.messageFree + J.Total(J.Texts, t.order, t.res) + Losses(run, es) == MAX_NUM_RESOURCES
      && (10 * J.Total(J.Queues, t.order, t.res) + Losses(run, es) < MAX_NUM_RESOURCES ==> t.messageFree > 0)
  {
    hide KernelInv, IsRun, Losses, J.TableInv;
    BootedInv();
    Q.RunLength(run, es);
    LossesAddUp(run, es);
    RunKeepsInv(run, es, |es|);
    InvHalves(run[|es|]);
    KeptMeansNoneLost(run[|es|].rs);
    TextsBounded(run[|es|].rs);
  }

  lemma TextsBounded(t: Table)
    requires J.TableInv(t)
    ensures J.Total(J.Texts, t.order, t.res) <= 10 * J.Total(J.Queues, t.order, t.res)
  {
    hide J.Names, J.Owned, J.Crossed, J.Pooled, J.Books;
    forall id <- t.order | id in t.res ensures J.Weight(J.Texts, t.res[id]) <= MQ_MAX_MSG_SIZE {
      assert J.Bounded(t.res[id], t.queuePool, t.stranded, t.numMsg);
    }
    TotalBound(t.order, t.res);
  }

  // ---------- queue blocks ----------

  /** Every queue block is free or a queue. */
  ghost predicate QueuesKept(t: Table) {
    |t.queuePool| + J.Total(J.Queues, t.order, t.res) == MAX_NUM_RESOURCES
  }

  /** Along a run all queue blocks are accounted for if and only if they were at its start and no destroy since has
      taken a queue for a plain resource. */
  lemma {:induction false} RunKeepsQueues(run: seq<State>, es: seq<Event>, k: nat)
    requires IsRun(run, es) && KernelInv(run[0]) && k <= |es|
    ensures QueuesKept(run[k].rs) <==>
      QueuesKept(run[0].rs) && forall i :: 0 <= i < k ==> !Q.Strands(run[i].rs, es[i])
  {
    hide KernelInv, MessagesKept, QueuesKept, Step, Enabled, J.TableInv, Q.Strands;
    RunKeepsInv(run, es, k);
    InvHalves(run[k]);
    KeptMeansNoneLost(run[k].rs);
    if k > 0 {
      RunKeepsQueues(run, es, k - 1);
      RunKeepsInv(run, es, k - 1);
      InvHalves(run[k - 1]);
      KeptMeansNoneLost(run[k - 1].rs);
      RunStep(run, es, k - 1);
      StepLoss(run[k - 1], es[k - 1]);
      StrandingIsSome(run[k - 1].rs, es[k - 1]);
    }
  }

  lemma StrandingIsSome(t: Table, e: Event)
    ensures StrandedBy(t, e) == map[] <==> t.stranded == map[] && !Q.Strands(t, e)
  {
    if Q.Strands(t, e) {
      assert t.res[e.id].kind.block in StrandedBy(t, e);
    }
  }

  /** A stranded block belongs to no queue and to no pool. */
  ghost predicate OutOfReach(t: Table, b: nat) {
    b in t.stranded && b !in t.queuePool && forall id <- t.res :: t.res[id].kind.Queue? ==> t.res[id].kind.block != b
  }

  lemma StrandedOutOfReach(t: Table, b: nat)
    requires J.TableInv(t) && b in t.stranded
    ensures OutOfReach(t, b)
  {
    hide J.Names, J.Owned, J.Crossed, J.Pooled, J.Books;
    forall id <- t.res | t.res[id].kind.Queue? ensures t.res[id].kind.block != b {
      assert J.Bounded(t.res[id], t.queuePool, t.stranded, t.numMsg);
    }
  }

  /** The block that a destroyed queue leaves behind keeps its messages and is out of reach in every later state. */
  lemma {:induction false} StrandedForever(run: seq<State>, es: seq<Event>, b: nat, k: nat)
    requires IsRun(run, es) && KernelInv(run[0]) && b in run[0].rs.stranded && k <= |es|
    ensures OutOfReach(run[k].rs, b) && run[k].rs.stranded[b] == run[0].rs.stranded[b]
  {
    hide KernelInv, Step, Enabled, J.TableInv, OutOfReach, StrandedBy;
    RunKeepsInv(run, es, k);
    InvHalves(run[k]);
    if k > 0 {
      StrandedForever(run, es, b, k - 1);
      RunKeepsInv(run, es, k - 1);
      InvHalves(run[k - 1]);
      RunStep(run, es, k - 1);
      StepLoss(run[k - 1], es[k - 1]);
      StaysStranded(run[k - 1].rs, es[k - 1], b);
    }
    StrandedOutOfReach(run[k].rs, b);
  }

  lemma StaysStranded(t: Table, e: Event, b: nat)
    requires J.TableInv(t) && OutOfReach(t, b)
    ensures b in t.stranded && b in StrandedBy(t, e) && StrandedBy(t, e)[b] == t.stranded[b]
  {
    hide J.TableInv;
  }

  /** A destroy of a queue leaves its block out of reach, with its messages. */
  lemma DestroyStrands(s: State, e: Event)
    requires KernelInv(s) && Enabled(s, e) && Q.Strands(s.rs, e)
    ensures var b, t := s.rs.res[e.id].kind.block, Step(s, e).rs;
      OutOfReach(t, b) && t.stranded[b] == s.rs.res[e.id].kind.messages && e.id !in t.order
  {
    hide KernelInv, J.TableInv, OutOfReach, P.Exit, P.Wait, P.Sleep, P.Spawn, P.Heir, P.BlockOnQueue, P.Allocated;
    StepLoss(s, e);
    StepKeepsInv(s, e);
    InvHalves(Step(s, e));
    StrandedOutOfReach(Step(s, e).rs, s.rs.res[e.id].kind.block);
    hide P.Return, P.Schedule, P.Allocated;
    assert Step(s, e).rs == Destroy(s.rs, e.id).table;
  }
}
