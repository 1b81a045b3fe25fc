/** The resource half of the kernel as values: resources, message queues, descriptors and their pools, and
    what each call does to them. Memory blocks are named by their index in the pool they come from; a resource
    is named by its id. */
module Resources {
  import opened Constants
  import opened Sequences

  /** A Descriptor block: the process and fd it stands for, its resource and its entry in the resource's list. */
  datatype Desc = Desc(pid: nat, fd: int, rid: int, ptr: nat)

  /** A message is the address the sender passed. */
  datatype Kind = Plain | Queue(block: nat, messages: seq<int>)
  datatype Resource = Resource(rtype: int, ptrs: seq<nat>, kind: Kind)
  datatype Files = Files(lastFd: nat, descs: seq<nat>)

  datatype Table = Table(
    order: seq<int>, res: map<int, Resource>,  // resources_list, and the blocks it links
    desc: map<nat, Desc>, dptr: map<nat, nat>, // allocated Descriptor and DescriptorPtr blocks
    files: map<nat, Files>,                    // last_fd and descriptors of every allocated PCB
    descPool: seq<nat>, ptrPool: seq<nat>, queuePool: seq<nat>,
    numMsg: map<nat, nat>,                     // num_msg of every queue block, live or free
    resourceFree: nat, messageFree: nat,
    queuesMade: nat,                           // history: queues created so far, each using up a Resource block
    stranded: map<nat, seq<int>>,              // history: blocks and messages of queues destroyed as plain resources
    lostMessages: nat)                         // how many messages those are

  /** The table a call leaves and the value it returns. */
  datatype Outcome = Outcome(table: Table, code: int)

  ghost predicate WellLinked(t: Table) {
    && (forall id <- t.order :: id in t.res)
    && (forall p <- t.files :: forall d <- t.files[p].descs :: d in t.desc)
    && (forall d <- t.desc :: t.desc[d].rid in t.res)
    && (forall id <- t.res :: t.res[id].kind.Queue? ==> t.res[id].kind.block in t.numMsg)
  }

  /** The open_mode flags, read as bits of a two's complement number. */
  predicate HasCreate(mode: int) { mode / DSOS_CREATE % 2 == 1 }
  predicate HasExcl(mode: int) { mode / DSOS_EXCL % 2 == 1 }

  /** DescriptorList_byFd: the first descriptor with this fd. */
  function ByFd(desc: map<nat, Desc>, ds: seq<nat>, fd: int): (r: Option<nat>)
    requires forall d <- ds :: d in desc
    ensures r.Some? ==> r.value in ds && desc[r.value].fd == fd
    ensures r.None? ==> forall d <- ds :: desc[d].fd != fd
  {
    if ds == [] then None else if desc[ds[0]].fd == fd then Some(ds[0]) else ByFd(desc, ds[1..], fd)
  }

  // ---------- opening ----------

  function AddResource(t: Table, id: int, r: Resource): Table {
    t.(order := t.order + [id], res := t.res[id := r])
  }

  /** The common end of both open calls: checks, then a descriptor linked with its entry in the resource. */
  function OpenExisting(t: Table, pid: nat, id: int, rtype: int, mode: int): Outcome
    requires pid in t.files && (forall i <- t.order :: i in t.res)
    requires t.descPool != [] ==> t.ptrPool != []
  {
    if id !in t.order || t.res[id].rtype != rtype then Outcome(t, DSOS_ERESOURCEOPEN)
    else if HasExcl(mode) && |t.res[id].ptrs| != 0 then Outcome(t, DSOS_ERESOURCENOEXCL)
    else if t.descPool == [] then Outcome(t, DSOS_ERESOURCENOFD)
    else Outcome(Link(t, pid, id), t.files[pid].lastFd)
  }

  function Link(t: Table, pid: nat, id: int): Table
    requires pid in t.files && id in t.res && t.descPool != [] && t.ptrPool != []
  {
    var d, q, fd := t.descPool[0], t.ptrPool[0], t.files[pid].lastFd;
    t.(desc := t.desc[d := Desc(pid, fd, id, q)], descPool := t.descPool[1..],
       dptr := t.dptr[q := d], ptrPool := t.ptrPool[1..],
       files := t.files[pid := Files(fd + 1, t.files[pid].descs + [d])],
       res := t.res[id := t.res[id].(ptrs := t.res[id].ptrs + [q])])
  }

  /** A plain resource of the message queue type would pass for a queue, so creating one is excluded. */
  ghost predicate OpenDefined(t: Table, pid: nat, id: int, rtype: int, mode: int) {
    && pid in t.files && WellLinked(t)
    && (t.descPool != [] ==> t.ptrPool != [])
    && (HasCreate(mode) && id !in t.order ==> t.resourceFree > 0 && rtype != DSOS_MQ)
  }

  function OpenResource(t: Table, pid: nat, id: int, rtype: int, mode: int): Outcome
    requires OpenDefined(t, pid, id, rtype, mode)
  {
    if HasCreate(mode) then
      if id in t.order then Outcome(t, DSOS_ERESOURCECREATE)
      else
        var made := AddResource(t, id, Resource(rtype, [], Plain)).(resourceFree := t.resourceFree - 1);
        OpenExisting(made, pid, id, rtype, mode)
    else OpenExisting(t, pid, id, rtype, mode)
  }

  lemma OpenResourceShape(t: Table, pid: nat, id: int, rtype: int, mode: int)
    requires OpenDefined(t, pid, id, rtype, mode)
    ensures var u := OpenResource(t, pid, id, rtype, mode).table;
      pid in u.files && (forall i <- u.order :: i in u.res) && (HasCreate(mode) ==> id in u.order)
  {
  }

  /** With another type than a queue's, mq_open runs open_resource first and then goes on. */
  ghost predicate MqOpenDefined(t: Table, pid: nat, id: int, rtype: int, mode: int) {
    if rtype != DSOS_MQ then
      && OpenDefined(t, pid, id, rtype, mode)
      && var u := OpenResource(t, pid, id, rtype, mode).table; (u.descPool != [] ==> u.ptrPool != [])
    else
      && pid in t.files && WellLinked(t)
      && (t.descPool != [] ==> t.ptrPool != [])
      && (mode == DSOS_CREATE && id !in t.order ==> t.resourceFree > 0 && t.queuePool != [])
  }

  /** A new queue takes a queue block, whose num_msg is not reset, and uses up a Resource block. */
  function MakeQueue(t: Table, id: int): Table
    requires t.queuePool != [] && t.resourceFree > 0
  {
    AddResource(t, id, Resource(DSOS_MQ, [], Queue(t.queuePool[0], [])))
      .(queuePool := t.queuePool[1..], resourceFree := t.resourceFree - 1, queuesMade := t.queuesMade + 1)
  }

  function MqOpen(t: Table, pid: nat, id: int, rtype: int, mode: int): Outcome
    requires MqOpenDefined(t, pid, id, rtype, mode)
  {
    if rtype != DSOS_MQ then
      OpenResourceShape(t, pid, id, rtype, mode);
      MqOpenFound(OpenResource(t, pid, id, rtype, mode).table, pid, id, rtype, mode)
    else
      MqOpenFound(t, pid, id, rtype, mode)
  }

  /** mq_open from its own lookup on. */
  function MqOpenFound(t: Table, pid: nat, id: int, rtype: int, mode: int): Outcome
    requires pid in t.files && (forall i <- t.order :: i in t.res)
    requires t.descPool != [] ==> t.ptrPool != []
    requires mode == DSOS_CREATE && id !in t.order ==> t.resourceFree > 0 && t.queuePool != []
  {
    if mode == DSOS_CREATE then
      if id in t.order then Outcome(t, DSOS_ERESOURCECREATE)
      else OpenExisting(MakeQueue(t, id), pid, id, rtype, mode)
    else OpenExisting(t, pid, id, rtype, mode)
  }

  // ---------- closing ----------

  /** Descriptor `d` of process `pid` is taken off both lists and both blocks are freed. */
  function Unlinked(t: Table, pid: nat, d: nat): Table
    requires pid in t.files && d in t.desc && t.desc[d].rid in t.res
  {
    var id, q := t.desc[d].rid, t.desc[d].ptr;
    t.(desc := t.desc - {d}, descPool := [d] + t.descPool,
       dptr := t.dptr - {q}, ptrPool := [q] + t.ptrPool,
       files := t.files[pid := t.files[pid].(descs := Minus(t.files[pid].descs, [d]))],
       res := t.res[id := t.res[id].(ptrs := Minus(t.res[id].ptrs, [q]))])
  }

  function Close(t: Table, pid: nat, fd: int): Outcome
    requires pid in t.files && WellLinked(t)
  {
    match ByFd(t.desc, t.files[pid].descs, fd)
    case None => Outcome(t, DSOS_ERESOURCECLOSE)
    case Some(d) => Outcome(Unlinked(t, pid, d), 0)
  }

  /** The descriptor cleanup of exit, first to last. */
  function CloseAll(t: Table, pid: nat, ds: seq<nat>): Table
    requires pid in t.files && (forall d <- ds :: d in t.desc && t.desc[d].rid in t.res)
    requires NoDup(ds)
    decreases ds
  {
    if ds == [] then t else
      NoDupTail(ds);
      CloseAll(Unlinked(t, pid, ds[0]), pid, ds[1..])
  }

  // ---------- destroying ----------

  function Forget(t: Table, id: int): Table {
    t.(order := Minus(t.order, [id]), res := t.res - {id})
  }

  /** The block of a plain resource is freed. A queue is only taken off the list: the address of its copy of a
      Resource block is refused by the pool, and its own block and messages are never freed. */
  function Destroy(t: Table, id: int): Outcome
    requires WellLinked(t)
  {
    if id !in t.order then Outcome(t, DSOS_ERESOURCECLOSE)
    else if |t.res[id].ptrs| != 0 then Outcome(t, DSOS_ERESOURCEINUSE)
    else match t.res[id].kind
      case Plain => Outcome(Forget(t, id).(resourceFree := t.resourceFree + 1), 0)
      case Queue(block, messages) =>
        var lost := t.lostMessages + |messages|;
        Outcome(Forget(t, id).(stranded := t.stranded[block := messages], lostMessages := lost), 0)
  }

  ghost predicate UnlinkDefined(t: Table, id: int) {
    WellLinked(t) && (id in t.order ==> t.res[id].kind.Queue?)
  }

  /** The queue block and the blocks of leftover messages are freed; its Resource block, of which the queue
      holds only a copy, is not, and num_msg stays as it is. */
  function MqUnlink(t: Table, id: int): Outcome
    requires UnlinkDefined(t, id)
  {
    if id !in t.order then Outcome(t, DSOS_ERESOURCECLOSE)
    else if |t.res[id].ptrs| != 0 then Outcome(t, DSOS_ERESOURCEINUSE)
    else
      var q := t.res[id].kind;
      Outcome(Forget(t, id).(queuePool := [q.block] + t.queuePool, messageFree := t.messageFree + |q.messages|), 0)
  }

  // ---------- messages ----------

  /** What send and receive find under an fd. */
  function Target(t: Table, pid: nat, fd: int): (r: Option<int>)
    requires pid in t.files && WellLinked(t)
    ensures r.Some? ==> r.value in t.res
  {
    match ByFd(t.desc, t.files[pid].descs, fd)
    case None => None
    case Some(d) => Some(t.desc[d].rid)
  }

  ghost predicate IsQueue(t: Table, id: int) {
    id in t.res && t.res[id].kind.Queue? && t.res[id].kind.block in t.numMsg
  }

  function Count(t: Table, id: int): nat
    requires IsQueue(t, id)
  {
    t.numMsg[t.res[id].kind.block]
  }

  function Messages(t: Table, id: int): seq<int>
    requires IsQueue(t, id)
  {
    t.res[id].kind.messages
  }

  function SetQueue(t: Table, id: int, messages: seq<int>, count: nat): Table
    requires IsQueue(t, id)
  {
    t.(res := t.res[id := t.res[id].(kind := t.res[id].kind.(messages := messages))],
       numMsg := t.numMsg[t.res[id].kind.block := count])
  }

  /** The test and the two effects of internal_mqSend past its guards. */
  predicate Full(t: Table, id: int)
    requires IsQueue(t, id)
  {
    Count(t, id) == MQ_MAX_MSG_SIZE
  }

  function Enqueue(t: Table, id: int, msg: int): Table
    requires IsQueue(t, id) && t.messageFree > 0
  {
    SetQueue(t, id, Messages(t, id) + [msg], Count(t, id) + 1).(messageFree := t.messageFree - 1)
  }

  predicate Empty(t: Table, id: int)
    requires IsQueue(t, id)
  {
    Count(t, id) == 0
  }

  function Dequeue(t: Table, id: int): Table
    requires IsQueue(t, id) && Count(t, id) > 0 && Messages(t, id) != []
  {
    SetQueue(t, id, Messages(t, id)[1..], Count(t, id) - 1).(messageFree := t.messageFree + 1)
  }

  // ---------- processes ----------

  function NewProcess(t: Table, pid: nat): Table {
    t.(files := t.files[pid := Files(0, [])])
  }

  /** The PCB block goes away; descriptors still on its list stay allocated. */
  function FreeProcess(t: Table, pid: nat): Table {
    t.(files := t.files - {pid})
  }
}
