/** Wait, exit and spawn keep the invariant. */
module FamilyKeeps {
  import opened Constants
  import opened Sequences
  import opened Processes
  import opened ProcessInvariant
  import opened ScheduleKeeps
  import opened BlockKeeps

  lemma OneLister(s: Procs, c: nat, p: nat, q: nat)
    requires Family(s) && p in s.pcb && q in s.pcb
    requires c in s.pcb[p].children && c in s.pcb[q].children
    ensures p == q
  {
    assert ListedBy(s, c, p) && ListedBy(s, c, q);
  }

  // ---------- a zombie leaves its lister's children and its block is freed ----------

  ghost predicate ZombieRemoved(s: Procs, t: Procs, p: nat, c: nat) {
    && p in s.pcb && c in s.pcb && p != c && c in s.pcb[p].children && s.pcb[c].status == Zombie
    && t.init == s.init && t.pcb.Keys == s.pcb.Keys - {c}
    && (forall q <- t.pcb :: q != p ==> t.pcb[q].children == s.pcb[q].children)
    && NoDup(t.pcb[p].children)
    && (forall x <- s.pcb[p].children :: x != c ==> x in t.pcb[p].children)
    && (forall x <- t.pcb[p].children :: x != c && x in s.pcb[p].children)
    && (forall q <- t.pcb ::
      t.pcb[q].parent == s.pcb[q].parent && (t.pcb[q].status == Zombie <==> s.pcb[q].status == Zombie))
  }

  lemma ZombieRemovedFamily(s: Procs, t: Procs, p: nat, c: nat)
    requires Family(s) && ZombieRemoved(s, t, p, c)
    ensures Family(t)
  {
    assert ListedBy(s, c, p);
    forall q <- t.pcb, x <- t.pcb[q].children ensures ListedBy(t, x, q) {
      assert x in s.pcb[q].children && ListedBy(s, x, q);
      if x == c {
        OneLister(s, c, p, q);
      }
    }
    forall x <- t.pcb | x != t.init ensures HasLister(t, x) {
      assert HasLister(s, x);
    }
  }

  lemma ReapRemoves(s: Procs, k: nat)
    requires Family(s) && CanRun(s) && k < |s.pcb[s.running.value].children|
    requires s.pcb[s.pcb[s.running.value].children[k]].status == Zombie
    ensures ZombieRemoved(s, Reap(s, k), s.running.value, s.pcb[s.running.value].children[k])
  {
    var me, t := s.running.value, Reap(s, k);
    var cs := s.pcb[me].children;
    assert ListedBy(s, cs[k], me);
    NoDupRemovedAt(cs, k);
    forall x <- cs | x != cs[k] ensures x in t.pcb[me].children {
      var i :| 0 <= i < |cs| && cs[i] == x;
      assert RemovedAt(cs, k)[if i < k then i else i - 1] == x;
    }
  }

  lemma ReapPlaced(s: Procs, k: nat)
    requires Placed(s) && Family(s) && CanRun(s) && k < |s.pcb[s.running.value].children|
    requires s.pcb[s.pcb[s.running.value].children[k]].status == Zombie
    ensures Placed(Reap(s, k))
  {
    var me, t := s.running.value, Reap(s, k);
    var c := s.pcb[me].children[k];
    assert ListedBy(s, c, me);
    NoDupMinus(s.zombies, [c]);
    forall p <- t.pcb ensures Housed(t, p) {
      assert Housed(s, p);
    }
  }

  lemma ReapClocked(s: Procs, k: nat)
    requires Placed(s) && Clocked(s) && Family(s) && CanRun(s) && k < |s.pcb[s.running.value].children|
    requires s.pcb[s.pcb[s.running.value].children[k]].status == Zombie
    ensures Clocked(Reap(s, k))
  {
    var me, t := s.running.value, Reap(s, k);
    assert ListedBy(s, s.pcb[me].children[k], me);
  }

  /** The books after the block of `c` is freed and its exit value delivered. */
  lemma DeliveryBooks(s: Procs, t: Procs, c: nat, d: Delivery)
    requires Accounts(s) && Named(s) && c in s.pcb && c != s.init && s.init in s.pcb && d.child == c
    requires t.lastPid == s.lastPid && t.init == s.init && t.deliveries == s.deliveries + [d]
    requires t.pcb.Keys == s.pcb.Keys - {c} && forall p <- t.pcb :: t.pcb[p].parent == s.pcb[p].parent
    requires t.timerFree + |t.timers| == s.timerFree + |s.timers|
    requires c in s.home && t.pcbPool == Vacated(s, c) && t.home == s.home && t.tenant == s.tenant
    requires t.ptrFree == s.ptrFree + (if d.byExit then 0 else 1)
    ensures Accounts(t) && Named(t)
  {
    assert t.deliveries[..|t.deliveries| - 1] == s.deliveries;
    assert |t.pcb.Keys| == |s.pcb.Keys| - 1;
    assert Children(t.deliveries) == Children(s.deliveries) + [c];
    NoDupSnoc(Children(s.deliveries), c);
    VacatedBlocks(s, t, c);
    PidsIssued(s);
    hide Blocked;
    forall p: nat | p < t.lastPid ensures Traced(t, p) {
      assert Traced(s, p);
    }
  }

  lemma VacatedBlocks(s: Procs, t: Procs, c: nat)
    requires Blocked(s) && c in s.pcb && c in s.home && t.pcbPool == Vacated(s, c)
    requires t.home == s.home && t.tenant == s.tenant && t.lastPid == s.lastPid && t.init == s.init
    requires t.pcb.Keys == s.pcb.Keys - {c} && forall p <- t.pcb :: t.pcb[p].parent == s.pcb[p].parent
    ensures Blocked(t)
  {
    assert Lives(s, c);
    assert s.home[c] in s.pcbPool ==> Vacant(s, s.home[c]);
    assert InsertedAt(s.pcbPool, 0, s.home[c]) == t.pcbPool;
    NoDupInsertedAt(s.pcbPool, 0, s.home[c]);
    SameLodgings(s, t);
    forall p <- t.pcb ensures Lives(t, p) {
      assert Lives(s, p);
    }
    forall b <- t.pcbPool ensures Vacant(t, b) {
      assert b in s.pcbPool ==> Vacant(s, b);
    }
  }

  lemma ReapKeepsInv(s: Procs, k: nat)
    requires Inv(s) && CanRun(s) && k < |s.pcb[s.running.value].children|
    requires s.pcb[s.pcb[s.running.value].children[k]].status == Zombie
    ensures Inv(Reap(s, k))
  {
    hide Placed, Clocked, Accounts, Named;
    var me, t := s.running.value, Reap(s, k);
    var c := s.pcb[me].children[k];
    assert ListedBy(s, c, me);
    ReapRemoves(s, k);
    ZombieRemovedFamily(s, t, me, c);
    ReapPlaced(s, k);
    ReapClocked(s, k);
    DeliveryBooks(s, t, c, t.deliveries[|s.deliveries|]);
  }

  lemma WaitKeepsInv(s: Procs)
    requires Inv(s) && WaitDefined(s) && s.pcb[s.running.value].syscallNum == DSOS_CALL_WAIT
    ensures Inv(Wait(s))
  {
    hide Placed, Clocked, Family, Accounts, Named;
    var cs := s.pcb[s.running.value].children;
    if cs == [] {
      ReturnKeepsInv(s, DSOS_EWAIT);
    } else if s.pcb[cs[AwaitedIndex(s)]].status == Zombie {
      ReapKeepsInv(s, AwaitedIndex(s));
    } else {
      BlockInWaitKeepsInv(s);
    }
  }

  // ---------- exit ----------

  /** What the exiting process leaves behind, field by field. */
  lemma BuriedFields(s: Procs, p: nat)
    requires ExitDefined(s) && p in s.pcb
    ensures var a, b, me := s.pcb[p], Buried(s)[p], s.running.value;
      && b.status == (if p == me then Zombie else a.status)
      && b.children == (if p == me then [] else if p == s.init then a.children + s.pcb[me].children else a.children)
      && b.parent == a.parent && b.hasTimer == a.hasTimer && b.syscallNum == a.syscallNum && b.args == a.args
      && b.returnValue == (if p == me then a.args[0] else a.returnValue)
      && b.retvalue == a.retvalue && b.signalsMask == a.signalsMask
  {
    assert s.running.value in s.pcb;
    hide Allocated, WaitsFor, Heir, Reparent;
    var me := s.running.value;
    var m := s.pcb[me := s.pcb[me].(returnValue := s.pcb[me].args[0])];
    MovedFields(m, me, s.init, p);
  }

  lemma MovedFields(m: map<nat, Pcb>, me: nat, init: nat, p: nat)
    requires me in m && p in m
    ensures Reparent(m, me, init).Keys == m.Keys
    ensures var a, b := m[p], Reparent(m, me, init)[p];
      && b == a.(children := b.children, signals := b.signals)
      && b.children == (if p == me then [] else if p == init then a.children + m[me].children else a.children)
  {
  }

  function Grave(s: Procs): Procs
    requires ExitDefined(s)
  {
    s.(pcb := Buried(s))
  }

  lemma GraveChildren(s: Procs)
    requires Family(s) && ExitDefined(s)
    ensures forall p <- Grave(s).pcb :: NoDup(Grave(s).pcb[p].children)
  {
    hide Buried;
    var me := s.running.value;
    forall p <- Grave(s).pcb ensures NoDup(Grave(s).pcb[p].children) {
      BuriedFields(s, p);
      if p == s.init {
        forall c <- s.pcb[p].children ensures c !in s.pcb[me].children {
          if c in s.pcb[me].children {
            OneLister(s, c, p, me);
          }
        }
        NoDupConcat(s.pcb[p].children, s.pcb[me].children);
      }
    }
  }

  lemma GraveFamily(s: Procs)
    requires Family(s) && ExitDefined(s)
    ensures Family(Grave(s))
  {
    hide Buried;
    var me, t := s.running.value, Grave(s);
    GraveChildren(s);
    forall p <- s.pcb ensures p in t.pcb {
      BuriedFields(s, p);
    }
    forall c <- t.pcb | c != t.init ensures HasLister(t, c) {
      GraveHasLister(s, c);
    }
    forall p <- t.pcb, c <- t.pcb[p].children ensures ListedBy(t, c, p) {
      GraveListedBy(s, c, p);
    }
    BuriedFields(s, s.init);
    forall p <- t.pcb | t.pcb[p].status == Zombie ensures t.pcb[p].children == [] {
      BuriedFields(s, p);
    }
  }

  lemma GraveHasLister(s: Procs, c: nat)
    requires Family(s) && ExitDefined(s) && c in s.pcb && c != s.init
    ensures c in Grave(s).pcb && s.init in Grave(s).pcb && HasLister(Grave(s), c)
  {
    hide Buried;
    assert HasLister(s, c);
    BuriedFields(s, c);
    BuriedFields(s, s.init);
    if s.pcb[c].parent.value in s.pcb {
      BuriedFields(s, s.pcb[c].parent.value);
    }
  }

  lemma GraveListedBy(s: Procs, c: nat, p: nat)
    requires Family(s) && ExitDefined(s) && p in s.pcb
    requires p in Grave(s).pcb && c in Grave(s).pcb[p].children
    ensures s.init in Grave(s).pcb && ListedBy(Grave(s), c, p)
  {
    hide Buried;
    var me := s.running.value;
    BuriedFields(s, p);
    BuriedFields(s, me);
    BuriedFields(s, s.init);
    if c in s.pcb[p].children {
      assert ListedBy(s, c, p);
    } else {
      assert ListedBy(s, c, me);
    }
    BuriedFields(s, c);
    if s.pcb[c].parent.value in s.pcb {
      BuriedFields(s, s.pcb[c].parent.value);
    }
  }

  /** exit's timer cleanup never finds anything: a running process owns no timer. */
  lemma {:induction false} NothingToClean(ts: seq<Timer>, pid: nat)
    requires pid !in Pids(ts)
    ensures TimersWithout(ts, pid) == ts
  {
    if ts != [] {
      assert Pids(ts)[0] == ts[0].pid;
      PidsSlice(ts, 1);
      NothingToClean(ts[1..], pid);
    }
  }

  lemma ExitTimersUntouched(s: Procs)
    requires Placed(s) && Clocked(s) && CanRun(s)
    ensures TimersWithout(s.timers, s.running.value) == s.timers
  {
    NothingToClean(s.timers, s.running.value);
  }

  ghost predicate HandsOver(s: Procs)
    requires ExitDefined(s)
  {
    Heir(s).Some? && WaitsFor(s.pcb[Heir(s).value], s.running.value)
  }

  /** Whoever the caller's parent pointer leads to, only its parent can be waiting for it. */
  lemma HeirIsParent(s: Procs)
    requires Family(s) && Blocked(s) && ExitDefined(s)
    ensures var me := s.running.value;
      && (s.pcb[me].parent.value in s.pcb ==> Heir(s) == s.pcb[me].parent)
      && (HandsOver(s) ==> Heir(s) == s.pcb[me].parent && me in s.pcb[Heir(s).value].children)
  {
    var me := s.running.value;
    var q := s.pcb[me].parent.value;
    Leads(s, q);
    assert Lives(s, me) && Issued(s, q) && Lives(s, s.init) && Issued(s, s.init);
    if HandsOver(s) {
      assert ListedBy(s, me, Heir(s).value);
    }
  }

  /** Signals and reparenting do not disturb the test the source makes after them. */
  lemma ExitCases(s: Procs)
    requires ExitDefined(s)
    ensures Exit(s) == if HandsOver(s) then HandOver(s) else BecomeZombie(s)
  {
    if Heir(s).Some? {
      BuriedFields(s, Heir(s).value);
    }
  }

  lemma HandOverRemoves(s: Procs)
    requires Family(s) && ExitDefined(s) && HandsOver(s)
    ensures ZombieRemoved(Grave(s), HandOver(s), Heir(s).value, s.running.value)
  {
    hide Buried;
    var me, g, t := s.running.value, Grave(s), HandOver(s);
    var p := Heir(s).value;
    BuriedFields(s, me);
    BuriedFields(s, p);
    assert ListedBy(s, me, p);
    GraveChildren(s);
    NoDupMinus(g.pcb[p].children, [me]);
  }

  lemma HandOverStatuses(s: Procs)
    requires ExitDefined(s) && HandsOver(s)
    ensures var me, parent, t := s.running.value, Heir(s).value, HandOver(s);
      && t == s.(running := Some(parent), waiting := Minus(s.waiting, [parent]), pcb := t.pcb, pcbPool := t.pcbPool,
                 timers := t.timers, timerFree := t.timerFree, deliveries := t.deliveries)
      && t.pcb.Keys == s.pcb.Keys - {me} && t.pcb[parent].status == Running
      && forall p <- t.pcb :: p != parent ==> t.pcb[p].status == s.pcb[p].status
  {
    hide Buried;
    forall p <- HandOver(s).pcb
      ensures p != Heir(s).value ==> HandOver(s).pcb[p].status == s.pcb[p].status
    {
      BuriedFields(s, p);
    }
  }

  /** The running process vanishes and the waiting `parent` takes its place. */
  lemma TakenOverPlaced(s: Procs, t: Procs, parent: nat)
    requires Placed(s) && s.running.Some? && parent in s.pcb && s.pcb[parent].status == Waiting
    requires t.running == Some(parent) && t.ready == s.ready && t.zombies == s.zombies
    requires t.waiting == Minus(s.waiting, [parent])
    requires t.pcb.Keys == s.pcb.Keys - {s.running.value} && parent in t.pcb && t.pcb[parent].status == Running
    requires forall p <- t.pcb :: p != parent ==> t.pcb[p].status == s.pcb[p].status
    ensures Placed(t)
  {
    NoDupMinus(s.waiting, [parent]);
    hide Minus, NoDup;
    forall p <- t.pcb ensures Housed(t, p) {
      assert p in s.pcb && Housed(s, p);
    }
  }

  lemma HandOverPlaced(s: Procs)
    requires Placed(s) && ExitDefined(s) && HandsOver(s)
    ensures Placed(HandOver(s))
  {
    hide HandOver, Minus, Placed;
    HandOverStatuses(s);
    TakenOverPlaced(s, HandOver(s), Heir(s).value);
  }

  lemma HandOverClocked(s: Procs)
    requires Placed(s) && Clocked(s) && ExitDefined(s) && HandsOver(s)
    ensures Clocked(HandOver(s))
  {
    hide Buried;
    var me, t := s.running.value, HandOver(s);
    var parent := Heir(s).value;
    ExitTimersUntouched(s);
    BuriedFields(s, me);
    forall p <- s.pcb ensures p != me ==> p in t.pcb && Timed(t.pcb[p]) == Timed(s.pcb[p]) && !t.pcb[p].hasTimer {
      BuriedFields(s, p);
    }
    assert parent !in Pids(s.timers);
  }

  lemma HandOverBooks(s: Procs)
    requires Inv(s) && ExitDefined(s) && HandsOver(s)
    ensures Accounts(HandOver(s)) && Named(HandOver(s))
  {
    hide Accounts, Named, Buried;
    var me, t := s.running.value, HandOver(s);
    ExitTimersUntouched(s);
    forall p <- t.pcb ensures t.pcb[p].parent == s.pcb[p].parent {
      BuriedFields(s, p);
    }
    DeliveryBooks(s, t, me, t.deliveries[|s.deliveries|]);
  }

  lemma HandOverKeepsInv(s: Procs)
    requires Inv(s) && ExitDefined(s) && HandsOver(s)
    ensures Inv(HandOver(s))
  {
    hide Placed, Clocked, Accounts, Named, Buried, Family;
    var me, t := s.running.value, HandOver(s);
    HandOverPlaced(s);
    HandOverClocked(s);
    GraveFamily(s);
    HandOverRemoves(s);
    ZombieRemovedFamily(Grave(s), t, Heir(s).value, me);
    HandOverBooks(s);
  }

  lemma BecomeZombieStatuses(s: Procs)
    requires ExitDefined(s) && s.ready != []
    ensures var me, t := s.running.value, BecomeZombie(s);
      && t.pcb.Keys == s.pcb.Keys
      && forall p <- s.pcb ::
        t.pcb[p].status == if p == s.ready[0] then Running else if p == me then Zombie else s.pcb[p].status
  {
    hide Buried;
    forall p <- s.pcb
      ensures BecomeZombie(s).pcb[p].status ==
        if p == s.ready[0] then Running else if p == s.running.value then Zombie else s.pcb[p].status
    {
      BuriedFields(s, p);
    }
  }

  /** The running process becomes a zombie and the first ready one takes its place. */
  lemma RetiredPlaced(s: Procs, t: Procs)
    requires Placed(s) && s.running.Some? && s.ready != []
    requires t.running == Some(s.ready[0]) && t.ready == s.ready[1..] && t.waiting == s.waiting
    requires t.zombies == s.zombies + [s.running.value] && t.pcb.Keys == s.pcb.Keys
    requires forall p <- s.pcb ::
      t.pcb[p].status == if p == s.ready[0] then Running else if p == s.running.value then Zombie else s.pcb[p].status
    ensures Placed(t)
  {
    NoDupTail(s.ready);
    NoDupSnoc(s.zombies, s.running.value);
    hide NoDup;
    assert s.ready == [s.ready[0]] + s.ready[1..];
    forall p <- t.pcb ensures Housed(t, p) {
      assert Housed(s, p);
    }
  }

  lemma BecomeZombiePlaced(s: Procs)
    requires Placed(s) && ExitDefined(s) && s.ready != []
    ensures Placed(BecomeZombie(s))
  {
    hide Placed, Buried;
    BecomeZombieStatuses(s);
    RetiredPlaced(s, BecomeZombie(s));
  }

  lemma BecomeZombieClocked(s: Procs)
    requires Placed(s) && Clocked(s) && ExitDefined(s) && s.ready != []
    ensures Clocked(BecomeZombie(s))
  {
    hide Buried;
    var me, t := s.running.value, BecomeZombie(s);
    forall p <- s.pcb ensures p in t.pcb && Timed(t.pcb[p]) == Timed(s.pcb[p]) && !t.pcb[p].hasTimer {
      BuriedFields(s, p);
    }
    BuriedFields(s, me);
  }

  lemma BecomeZombieTree(s: Procs)
    requires Placed(s) && ExitDefined(s) && s.ready != []
    ensures SameTree(Grave(s), BecomeZombie(s))
  {
    hide Buried;
    BuriedFields(s, s.ready[0]);
    assert s.ready[0] in s.ready;
  }

  lemma BecomeZombieKeepsInv(s: Procs)
    requires Inv(s) && ExitDefined(s) && s.ready != []
    ensures Inv(BecomeZombie(s))
  {
    hide Placed, Clocked, Family, Accounts, Named, Buried;
    BecomeZombiePlaced(s);
    BecomeZombieClocked(s);
    GraveFamily(s);
    GraveBooks(s);
    BecomeZombieTree(s);
    SameTreeBooks(Grave(s), BecomeZombie(s));
  }

  lemma GraveBooks(s: Procs)
    requires Family(s) && Accounts(s) && Named(s) && ExitDefined(s)
    ensures Accounts(Grave(s)) && Named(Grave(s))
  {
    hide Buried;
    forall p <- s.pcb ensures Grave(s).pcb[p].parent == s.pcb[p].parent {
      BuriedFields(s, p);
    }
    assert |Grave(s).pcb.Keys| == |s.pcb.Keys|;
    SameBlocks(s, Grave(s));
    forall p: nat | p < s.lastPid ensures Traced(Grave(s), p) {
      assert Traced(s, p);
    }
  }

  lemma ExitKeepsInv(s: Procs)
    requires Inv(s) && ExitDefined(s)
    ensures Inv(Exit(s))
  {
    hide Placed, Clocked, Accounts, Named, Family;
    ExitCases(s);
    if HandsOver(s) {
      HandOverKeepsInv(s);
    } else {
      BecomeZombieKeepsInv(s);
    }
  }

  // ---------- spawn ----------

  /** The next pid is new: no process has it, and none has a parent by that name. */
  ghost predicate Fresh(s: Procs) {
    && s.lastPid !in s.pcb && s.lastPid !in Children(s.deliveries)
    && forall p <- s.pcb :: s.pcb[p].parent != Some(s.lastPid)
  }

  lemma NextPidFresh(s: Procs)
    requires Named(s)
    ensures Fresh(s)
  {
    PidsIssued(s);
  }

  lemma SpawnPlaced(s: Procs)
    requires Placed(s) && Fresh(s) && SpawnDefined(s)
    ensures Placed(Spawn(s))
  {
    var t := Spawn(s);
    NoDupSnoc(s.ready, s.lastPid);
    forall p <- t.pcb ensures Housed(t, p) {
      if p != s.lastPid {
        assert Housed(s, p);
      }
    }
  }

  lemma SpawnClocked(s: Procs)
    requires Placed(s) && Clocked(s) && Fresh(s) && SpawnDefined(s)
    ensures Clocked(Spawn(s))
  {
    var t := Spawn(s);
    assert forall p <- t.pcb :: p != s.lastPid ==> p in s.pcb && Timed(s.pcb[p]) == Timed(t.pcb[p]);
  }

  lemma SpawnFamily(s: Procs)
    requires Family(s) && Fresh(s) && SpawnDefined(s) && s.pcb[s.running.value].status != Zombie
    ensures Family(Spawn(s))
  {
    var t := Spawn(s);
    NoDupSnoc(s.pcb[s.running.value].children, s.lastPid);
    SpawnListed(s);
    forall c <- t.pcb | c != t.init ensures HasLister(t, c) {
      if c != s.lastPid {
        assert HasLister(s, c);
      }
    }
  }

  lemma SpawnListed(s: Procs)
    requires Family(s) && Fresh(s) && SpawnDefined(s) && s.pcb[s.running.value].status != Zombie
    ensures forall p <- Spawn(s).pcb :: forall c <- Spawn(s).pcb[p].children :: ListedBy(Spawn(s), c, p)
  {
    hide NoDup;
    var t := Spawn(s);
    forall p <- t.pcb, c <- t.pcb[p].children ensures ListedBy(t, c, p) {
      if c != s.lastPid {
        assert c in s.pcb[p].children && ListedBy(s, c, p);
      }
    }
  }

  lemma SpawnAccounts(s: Procs)
    requires Accounts(s) && Fresh(s) && SpawnDefined(s)
    ensures Accounts(Spawn(s))
  {
    var t := Spawn(s);
    assert t.pcb.Keys == s.pcb.Keys + {s.lastPid};
    assert |t.pcb.Keys| == |s.pcb.Keys| + 1;
  }

  lemma SpawnNamed(s: Procs)
    requires Named(s) && Fresh(s) && SpawnDefined(s)
    ensures Named(Spawn(s))
  {
    SpawnBlocks(s);
    forall p: nat | p < Spawn(s).lastPid ensures Traced(Spawn(s), p) {
      assert p < s.lastPid ==> Traced(s, p);
    }
  }

  lemma SpawnBlocks(s: Procs)
    requires Blocked(s) && Fresh(s) && SpawnDefined(s)
    ensures Blocked(Spawn(s))
  {
    var t, b := Spawn(s), s.pcbPool[0];
    assert Vacant(s, b) && b in s.pcbPool;
    assert Lives(s, s.running.value) && Issued(s, s.running.value);
    NoDupTail(s.pcbPool);
    assert OnlyAt(s.pcbPool, 0);
    SpawnLodgings(s);
    forall p <- t.pcb ensures Lives(t, p) {
      assert p != s.lastPid ==> Lives(s, p);
    }
    forall c <- t.pcbPool ensures Vacant(t, c) {
      assert c in s.pcbPool && Vacant(s, c) && (c in s.tenant ==> Held(s, c));
    }
  }

  lemma SpawnLodgings(s: Procs)
    requires Blocked(s) && SpawnDefined(s)
    ensures var t := Spawn(s);
      && s.lastPid !in s.home
      && (forall c <- t.tenant {:trigger Held(t, c)} :: Held(t, c))
      && (forall p <- t.home {:trigger Issued(t, p)} :: Issued(t, p))
  {
    var t := Spawn(s);
    assert s.lastPid in s.home ==> Issued(s, s.lastPid);
    assert Lives(s, s.init) && Issued(s, s.init);
    forall c <- t.tenant ensures Held(t, c) {
      assert c in s.tenant ==> Held(s, c);
    }
    forall p <- t.home ensures Issued(t, p) {
      assert p in s.home ==> Issued(s, p);
    }
  }

  lemma SpawnKeepsInv(s: Procs)
    requires Inv(s) && SpawnDefined(s)
    ensures Inv(Spawn(s)) && Fresh(s)
  {
    hide Clocked, Family, Accounts, Named, Fresh;
    assert s.pcb[s.running.value].status != Zombie;
    hide Placed;
    NextPidFresh(s);
    SpawnPlaced(s);
    SpawnClocked(s);
    SpawnFamily(s);
    SpawnAccounts(s);
    SpawnNamed(s);
  }
}
