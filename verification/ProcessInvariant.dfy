/** The invariant of the process half: where processes are, whose timers there are, who is whose child. */
module ProcessInvariant {
  import opened Constants
  import opened Sequences
  import opened Processes

  /** Every allocated PCB is in exactly one place, and its status says which. */
  ghost predicate Placed(s: Procs) {
    && NoDup(s.ready) && NoDup(s.waiting) && NoDup(s.zombies)
    && (s.running.Some? ==> s.running.value in s.pcb && s.pcb[s.running.value].status in {Running, Ready})
    && (forall p <- s.ready :: p in s.pcb && s.pcb[p].status == Ready && s.running != Some(p))
    && (forall p <- s.waiting :: p in s.pcb && s.pcb[p].status == Waiting)
    && (forall p <- s.zombies :: p in s.pcb && s.pcb[p].status == Zombie)
    && (forall p <- s.pcb {:trigger Housed(s, p)} :: Housed(s, p))
  }

  ghost predicate Housed(s: Procs, p: nat)
    requires p in s.pcb
  {
    match s.pcb[p].status
    case Running => s.running == Some(p)
    case Ready => s.running == Some(p) || p in s.ready
    case Waiting => p in s.waiting
    case Zombie => p in s.zombies
    case _ => false
  }

  ghost predicate SortedTimers(ts: seq<Timer>) {
    forall i, j :: 0 <= i < j < |ts| ==> ts[i].wake <= ts[j].wake
  }

  /** A process blocked by something other than wait. */
  ghost predicate Timed(p: Pcb) {
    p.status == Waiting && p.syscallNum != DSOS_CALL_WAIT
  }

  /** The timers are sorted, and belong one each to the processes blocked by something other than wait. */
  ghost predicate Clocked(s: Procs) {
    && SortedTimers(s.timers)
    && NoDup(Pids(s.timers))
    && (forall p <- Pids(s.timers) :: p in s.pcb && Timed(s.pcb[p]))
    && (forall p <- s.pcb {:trigger Timed(s.pcb[p])} :: Timed(s.pcb[p]) ==> p in Pids(s.timers))
    && (forall p <- s.pcb :: !s.pcb[p].hasTimer)
  }

  /** The parent of `c` is gone or a zombie, and `c` was moved to init. */
  ghost predicate Orphan(s: Procs, c: nat)
    requires c in s.pcb && s.init in s.pcb
  {
    && s.pcb[c].parent.Some? && s.pcb[c].parent.value != s.init
    && (s.pcb[c].parent.value in s.pcb ==> s.pcb[s.pcb[c].parent.value].status == Zombie)
    && c in s.pcb[s.init].children
  }

  /** Each process but init is listed as a child exactly once: by its parent or, for an orphan, by init. */
  ghost predicate Family(s: Procs) {
    && s.init in s.pcb && s.pcb[s.init].parent == None && s.pcb[s.init].status != Zombie
    && (forall p <- s.pcb :: NoDup(s.pcb[p].children) && (s.pcb[p].status == Zombie ==> s.pcb[p].children == []))
    && (forall p <- s.pcb, c <- s.pcb[p].children {:trigger ListedBy(s, c, p)} :: ListedBy(s, c, p))
    && (forall c <- s.pcb {:trigger HasLister(s, c)} :: c != s.init ==> HasLister(s, c))
  }

  ghost predicate ListedBy(s: Procs, c: nat, p: nat)
    requires s.init in s.pcb
  {
    && c in s.pcb && c != s.init && c != p
    && (s.pcb[c].parent == Some(p) || (p == s.init && Orphan(s, c)))
  }

  ghost predicate HasLister(s: Procs, c: nat)
    requires c in s.pcb && s.init in s.pcb
  {
    && s.pcb[c].parent.Some?
    && (Orphan(s, c) || (s.pcb[c].parent.value in s.pcb && c in s.pcb[s.pcb[c].parent.value].children))
  }

  function HandOvers(ds: seq<Delivery>): (n: nat) {
    if ds == [] then 0 else HandOvers(ds[..|ds| - 1]) + (if ds[|ds| - 1].byExit then 1 else 0)
  }

  /** Pool accounts. Each hand-over at exit loses a child-list block for good. */
  ghost predicate Accounts(s: Procs) {
    && s.timerFree + |s.timers| == MAX_NUM_PROCESSES
    && |s.pcbPool| + |s.pcb| == MAX_NUM_PROCESSES
    && s.ptrFree + |s.pcb| - 1 + HandOvers(s.deliveries) == MAX_NUM_PROCESSES
  }

  /** Each process is the tenant of a block of its own, which is neither free nor that of its parent. */
  ghost predicate Blocked(s: Procs) {
    && NoDup(s.pcbPool)
    && (forall p <- s.pcb {:trigger Lives(s, p)} :: Lives(s, p))
    && (forall b <- s.pcbPool {:trigger Vacant(s, b)} :: Vacant(s, b))
    && (forall b <- s.tenant {:trigger Held(s, b)} :: Held(s, b))
    && (forall p <- s.home {:trigger Issued(s, p)} :: Issued(s, p))
  }

  /** The last tenant of a block got this block. */
  ghost predicate Held(s: Procs, b: nat)
    requires b in s.tenant
  {
    s.tenant[b] in s.home && s.home[s.tenant[b]] == b
  }

  /** Later tenants of a block have higher pids, and init has the lowest of all. */
  ghost predicate Issued(s: Procs, p: nat)
    requires p in s.home
  {
    p < s.lastPid && s.home[p] in s.tenant && s.init <= p <= s.tenant[s.home[p]]
  }

  ghost predicate Vacant(s: Procs, b: nat) {
    b in s.tenant ==> s.tenant[b] !in s.pcb
  }

  ghost predicate Lives(s: Procs, p: nat)
    requires p in s.pcb
  {
    && p in s.home && s.home[p] in s.tenant && s.tenant[s.home[p]] == p
    && (s.pcb[p].parent.Some? ==>
          s.pcb[p].parent.value in s.home && s.home[s.pcb[p].parent.value] != s.home[p])
  }

  function Children(ds: seq<Delivery>): (r: seq<nat>)
    ensures |r| == |ds| && forall i {:trigger r[i]} {:trigger ds[i]} :: 0 <= i < |ds| ==> r[i] == ds[i].child
  {
    seq(|ds|, i requires 0 <= i < |ds| => ds[i].child)
  }

  /** Every pid ever issued either names an allocated PCB or has had its exit value delivered, exactly once. */
  ghost predicate Named(s: Procs) {
    && NoDup(Children(s.deliveries))
    && (forall c <- Children(s.deliveries) :: c < s.lastPid && c !in s.pcb)
    && (forall p: nat {:trigger Traced(s, p)} | p < s.lastPid :: Traced(s, p))
    && Blocked(s)
  }

  ghost predicate Traced(s: Procs, p: nat) {
    p in s.pcb || p in Children(s.deliveries)
  }

  ghost predicate Inv(s: Procs) {
    Placed(s) && Clocked(s) && Family(s) && Accounts(s) && Named(s)
  }

  /** A pointer to a PCB that is there leads to it, and no parent pointer leads back to its owner. */
  lemma Leads(s: Procs, p: nat)
    requires Blocked(s)
    ensures p in s.pcb ==> Referent(s, p) == Some(p)
    ensures p in s.pcb && s.pcb[p].parent.Some? ==> Referent(s, s.pcb[p].parent.value) != Some(p)
  {
    if p in s.pcb {
      assert Lives(s, p);
      if s.pcb[p].parent.Some? {
        assert Issued(s, s.pcb[p].parent.value) && Held(s, s.home[s.pcb[p].parent.value]);
      }
    }
  }

  lemma PidsIssued(s: Procs)
    requires Blocked(s)
    ensures forall p <- s.pcb :: p < s.lastPid && (s.pcb[p].parent.Some? ==> s.pcb[p].parent.value < s.lastPid)
  {
    forall p <- s.pcb ensures p < s.lastPid && (s.pcb[p].parent.Some? ==> s.pcb[p].parent.value < s.lastPid) {
      assert Lives(s, p) && Issued(s, p);
      if s.pcb[p].parent.Some? {
        assert Issued(s, s.pcb[p].parent.value);
      }
    }
  }

  lemma SameLodgings(s: Procs, t: Procs)
    requires Blocked(s) && t.home == s.home && t.tenant == s.tenant && t.lastPid == s.lastPid && t.init == s.init
    ensures forall b <- t.tenant {:trigger Held(t, b)} :: Held(t, b)
    ensures forall p <- t.home {:trigger Issued(t, p)} :: Issued(t, p)
  {
    forall b <- t.tenant ensures Held(t, b) {
      assert Held(s, b);
    }
    forall p <- t.home ensures Issued(t, p) {
      assert Issued(s, p);
    }
  }

  /** Only what is in the PCBs and not who has which block can have changed. */
  lemma SameBlocks(s: Procs, t: Procs)
    requires Blocked(s) && t.home == s.home && t.tenant == s.tenant && t.pcbPool == s.pcbPool
    requires t.lastPid == s.lastPid && t.init == s.init
    requires t.pcb.Keys == s.pcb.Keys && forall p <- s.pcb :: t.pcb[p].parent == s.pcb[p].parent
    ensures Blocked(t)
  {
    SameLodgings(s, t);
    forall p <- t.pcb ensures Lives(t, p) {
      assert Lives(s, p);
    }
    forall b <- t.pcbPool ensures Vacant(t, b) {
      assert Vacant(s, b);
    }
  }

  lemma InvAllocated(s: Procs)
    requires Inv(s)
    ensures Allocated(s)
  {
    forall p <- s.pcb ensures p in s.home {
      assert Lives(s, p);
    }
    forall p <- s.pcb, c <- s.pcb[p].children ensures c in s.pcb {
      assert ListedBy(s, c, p);
    }
  }

  // ---------- changes to registers only ----------

  /** `t` is `s` but for signals, arguments, call numbers and return values of processes that are not blocked. */
  ghost predicate SameShape(s: Procs, t: Procs) {
    && t == s.(pcb := t.pcb)
    && s.pcb.Keys == t.pcb.Keys
    && forall p <- s.pcb :: SamePcb(s.pcb[p], t.pcb[p])
  }

  ghost predicate SamePcb(a: Pcb, b: Pcb) {
    && b == a.(signals := b.signals, syscallNum := b.syscallNum, args := b.args, retvalue := b.retvalue)
    && (a.status == Waiting ==> b.syscallNum == a.syscallNum)
  }

  lemma SameShapePlaced(s: Procs, t: Procs)
    requires Placed(s) && SameShape(s, t)
    ensures Placed(t)
  {
    forall p <- t.pcb ensures Housed(t, p) {
      assert p in s.pcb && Housed(s, p);
    }
  }

  lemma SameShapeClocked(s: Procs, t: Procs)
    requires Placed(s) && Clocked(s) && SameShape(s, t)
    ensures Clocked(t)
  {
    forall p <- t.pcb ensures Timed(s.pcb[p]) == Timed(t.pcb[p]) {
      assert p in s.pcb;
    }
  }

  lemma SameShapeFamily(s: Procs, t: Procs)
    requires Family(s) && SameShape(s, t)
    ensures Family(t)
  {
    forall p <- t.pcb, c <- t.pcb[p].children ensures ListedBy(t, c, p) {
      assert p in s.pcb && c in s.pcb[p].children && ListedBy(s, c, p);
    }
    forall c <- t.pcb | c != t.init ensures HasLister(t, c) {
      assert c in s.pcb && HasLister(s, c);
    }
  }

  lemma SameShapeKeepsInv(s: Procs, t: Procs)
    requires Inv(s) && SameShape(s, t)
    ensures Inv(t)
  {
    SameShapePlaced(s, t);
    SameShapeClocked(s, t);
    SameShapeFamily(s, t);
    SameBlocks(s, t);
    assert |s.pcb.Keys| == |t.pcb.Keys|;
    forall p: nat | p < t.lastPid ensures Traced(t, p) {
      assert Traced(s, p);
    }
  }
}
