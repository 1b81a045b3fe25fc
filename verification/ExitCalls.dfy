/** What a call of exit does to the whole state, field by field. */
module ExitCalls {
  import opened Constants
  import opened Sequences
  import opened KernelSteps
  import opened KernelInvariant
  import opened Callers
  import P = Processes
  import R = Resources
  import I = ProcessInvariant
  import J = ResourceInvariant
  import FK = FamilyKeeps

  /** `q` is the parent of `c`, lists it, and is blocked in a wait for `c` or for any child. */
  ghost predicate Awaits(s: P.Procs, q: nat, c: nat)
    requires c in s.pcb
  {
    && q in s.pcb && s.pcb[c].parent == Some(q) && c in s.pcb[q].children
    && s.pcb[q].status == P.Waiting && s.pcb[q].syscallNum == DSOS_CALL_WAIT
    && (s.pcb[q].args[0] == 0 || s.pcb[q].args[0] == c)
  }

  /** The signals of `p` once the children of the caller have got SIGHUP and its parent SIGCHLD, unless masked. */
  function Signals(p: P.Pcb, orphaned: bool, parent: bool): set<P.Signal> {
    p.signals
    + (if orphaned && P.SIGHUP in p.signalsMask then {P.SIGHUP} else {})
    + (if parent && P.SIGCHLD in p.signalsMask then {P.SIGCHLD} else {})
  }

  /** Init inherits the caller's children. */
  function Adopted(s: P.Procs, me: nat, p: nat): seq<nat>
    requires me in s.pcb && p in s.pcb
  {
    if p == s.init then s.pcb[p].children + s.pcb[me].children else s.pcb[p].children
  }

  /** The parent `q` runs at once with the pid of `me` as its return value, and `me` is gone. */
  ghost predicate TakesOver(s: P.Procs, t: P.Procs, me: nat, q: nat, value: int)
    requires me in s.pcb && q in s.pcb && me in s.home && q in s.waiting
  {
    && t == s.(running := Some(q), waiting := RemovedAt(s.waiting, IndexOf(s.waiting, q)), pcb := t.pcb,
               pcbPool := [s.home[me]] + s.pcbPool,
               deliveries := s.deliveries + [P.Delivery(q, me, s.pcb[q].args[1], value, true)])
    && t.pcb.Keys == s.pcb.Keys - {me}
    && (forall p <- t.pcb :: t.pcb[p] == s.pcb[p].(
          status := if p == q then P.Running else s.pcb[p].status,
          children := if p == q then Minus(Adopted(s, me, p), [me]) else Adopted(s, me, p),
          retvalue := if p == q then me else s.pcb[p].retvalue,
          signals := Signals(s.pcb[p], p in s.pcb[me].children, p == q)))
  }

  /** The caller is the last zombie and the first ready process runs. Whoever has the block that the parent got is
      taken for the parent. */
  ghost predicate Retires(s: P.Procs, t: P.Procs, me: nat, value: int)
    requires me in s.pcb && s.pcb[me].parent.Some? && s.ready != []
  {
    var parent, next := s.pcb[me].parent.value, s.ready[0];
    && t == s.(running := Some(next), ready := s.ready[1..], zombies := s.zombies + [me], pcb := t.pcb)
    && t.pcb.Keys == s.pcb.Keys && parent in s.home && (forall p <- s.pcb :: p in s.home)
    && t.pcb[me] == Loaded(s.pcb[me], DSOS_CALL_EXIT, [value])
                      .(status := P.Zombie, children := [], returnValue := value)
    && (forall p <- t.pcb :: p != me ==> t.pcb[p] == s.pcb[p].(
          status := if p == next then P.Running else s.pcb[p].status,
          children := Adopted(s, me, p),
          signals := Signals(s.pcb[p], p in s.pcb[me].children, s.home[p] == s.home[parent])))
  }

  // ---------- the PCBs that exit leaves ----------

  lemma BuriedSignals(s: P.Procs, p: nat)
    requires P.ExitDefined(s) && p in s.pcb
    ensures p != s.running.value ==>
      P.Buried(s)[p].signals == Signals(s.pcb[p], p in s.pcb[s.running.value].children, P.Heir(s) == Some(p))
    ensures p == s.running.value && p !in s.pcb[p].children && P.Heir(s) != Some(p) ==>
      P.Buried(s)[p].signals == s.pcb[p].signals
  {
    var me := s.running.value;
    assert me in s.pcb;
    hide P.Allocated, P.WaitsFor, P.Heir;
    var m := s.pcb[me := s.pcb[me].(returnValue := s.pcb[me].args[0])];
    assert P.Reparent(m, me, s.init)[p] == P.Reparented(m, me, s.init, p);
  }

  /** Every PCB but the caller's. */
  lemma BuriedOthers(s: P.Procs, p: nat)
    requires P.ExitDefined(s) && p in s.pcb && p != s.running.value
    ensures P.Buried(s)[p] == s.pcb[p].(children := Adopted(s, s.running.value, p),
      signals := Signals(s.pcb[p], p in s.pcb[s.running.value].children, P.Heir(s) == Some(p)))
  {
    hide P.Buried, P.Allocated, P.WaitsFor, P.Heir;
    FK.BuriedFields(s, p);
    BuriedSignals(s, p);
  }

  lemma BuriedSelf(s: P.Procs)
    requires P.ExitDefined(s) && s.running.value !in s.pcb[s.running.value].children
    ensures var me := s.running.value;
      P.Buried(s)[me] ==
        s.pcb[me].(status := P.Zombie, children := [], returnValue := s.pcb[me].args[0])
  {
    assert s.running.value in s.pcb;
    hide P.Buried, P.Allocated, P.WaitsFor, P.Heir;
    FK.BuriedFields(s, s.running.value);
    BuriedSignals(s, s.running.value);
  }

  // ---------- the two endings ----------

  /** In the block of a process that is there is nobody else. */
  lemma SameBlock(s: P.Procs)
    requires I.Blocked(s) && P.ExitDefined(s)
    ensures s.pcb[s.running.value].parent.value in s.home && forall p <- s.pcb :: p in s.home
    ensures forall p <- s.pcb ::
      P.Heir(s) == Some(p) <==> s.home[p] == s.home[s.pcb[s.running.value].parent.value]
  {
    var me := s.running.value;
    assert I.Lives(s, me) && I.Issued(s, s.pcb[me].parent.value);
    forall p <- s.pcb
      ensures p in s.home && (P.Heir(s) == Some(p) <==> s.home[p] == s.home[s.pcb[me].parent.value])
    {
      assert I.Lives(s, p) && I.Held(s, s.home[s.pcb[me].parent.value]);
    }
  }

  /** `m` has the PCBs of `s` after the exit of `me`, before anyone else runs. */
  ghost predicate LeftBehind(s: P.Procs, m: map<nat, P.Pcb>, me: nat, value: int)
    requires me in s.pcb
  {
    && m.Keys == s.pcb.Keys
    && s.pcb[me].parent.Some? && s.pcb[me].parent.value in s.home && (forall p <- s.pcb :: p in s.home)
    && (forall p <- s.pcb :: p != me ==> m[p] == s.pcb[p].(children := Adopted(s, me, p),
          signals := Signals(s.pcb[p], p in s.pcb[me].children, s.home[p] == s.home[s.pcb[me].parent.value])))
    && m[me] == Loaded(s.pcb[me], DSOS_CALL_EXIT, [value]).(status := P.Zombie, children := [], returnValue := value)
  }

  lemma BuriedMeans(s: P.Procs, r: P.Procs, me: nat, value: int)
    requires Recording(s, r, me, DSOS_CALL_EXIT, [value]) && I.Inv(r) && P.ExitDefined(r)
    ensures LeftBehind(s, P.Buried(r), me, value)
  {
    hide I.Placed, I.Clocked, I.Accounts, Signals, P.Buried;
    SameBlock(r);
    assert forall c <- r.pcb[me].children :: I.ListedBy(r, c, me);
    BuriedSelf(r);
    hide I.Inv;
    forall p <- s.pcb | p != me
      ensures P.Buried(r)[p] == s.pcb[p].(children := Adopted(s, me, p),
        signals := Signals(s.pcb[p], p in s.pcb[me].children, s.home[p] == s.home[s.pcb[me].parent.value]))
    {
      BuriedOthers(r, p);
    }
  }

  lemma ZombieMeans(s: P.Procs, r: P.Procs, me: nat, value: int)
    requires Recording(s, r, me, DSOS_CALL_EXIT, [value]) && I.Inv(r) && P.ExitDefined(r) && r.ready != []
    ensures s.pcb[me].parent.Some? && Retires(s, P.BecomeZombie(r), me, value)
  {
    hide P.Buried, P.Heir, Signals, Adopted, LeftBehind, Retires;
    BuriedMeans(s, r, me, value);
    assert r.ready[0] in r.ready && r.ready[0] in r.pcb;
    assert r.ready[0] != me by { ReadyApart(r); }
    hide I.Inv, P.ExitDefined;
    NextRuns(s, P.Buried(r), P.BecomeZombie(r), me, value);
  }

  lemma NextRuns(s: P.Procs, m: map<nat, P.Pcb>, t: P.Procs, me: nat, value: int)
    requires me in s.pcb && LeftBehind(s, m, me, value) && s.ready != [] && s.ready[0] in s.pcb && s.ready[0] != me
    requires t == s.(running := Some(s.ready[0]), ready := s.ready[1..], zombies := s.zombies + [me],
                     pcb := m[s.ready[0] := m[s.ready[0]].(status := P.Running)])
    ensures Retires(s, t, me, value)
  {
    hide Signals, Adopted;
  }

  lemma ReadyApart(s: P.Procs)
    requires I.Inv(s) && s.running.Some?
    ensures s.running.value !in s.ready
  {
  }

  /** Exit hands over to the parent, and does so exactly when that awaits the caller. */
  lemma WhoAwaits(s: P.Procs, r: P.Procs, me: nat, value: int)
    requires Recording(s, r, me, DSOS_CALL_EXIT, [value]) && I.Inv(r) && P.ExitDefined(r)
    ensures s.pcb[me].parent.Some? && (FK.HandsOver(r) <==> Awaits(s, s.pcb[me].parent.value, me))
    ensures FK.HandsOver(r) ==> P.Heir(r) == s.pcb[me].parent && P.Heir(r) != Some(me)
  {
    FK.HeirIsParent(r);
    hide P.Heir, I.Inv;
  }

  lemma HandOverMeans(s: P.Procs, r: P.Procs, me: nat, value: int)
    requires Recording(s, r, me, DSOS_CALL_EXIT, [value]) && I.Inv(r) && P.ExitDefined(r) && FK.HandsOver(r)
    ensures s.pcb[me].parent.Some?
    ensures var q := s.pcb[me].parent.value;
      q in s.pcb && me in s.home && q in s.waiting && TakesOver(s, P.HandOver(r), me, q, value)
  {
    hide P.Buried, Signals, Adopted, LeftBehind, TakesOver, P.Heir;
    WhoAwaits(s, r, me, value);
    BuriedMeans(s, r, me, value);
    var q := s.pcb[me].parent.value;
    assert FK.HandsOver(r) && r.pcb[q].status == P.Waiting;
    WaiterListed(r, q);
    NothingCleaned(r);
    OneHome(r, q);
    hide I.Inv, NoDup, FK.HandsOver;
    RemovedAtIsMinus(s.waiting, q);
    HandOverIs(r, me, q);
    hide P.HandOver, P.ExitDefined, RemovedAt, IndexOf, Minus, P.Vacated;
    ArgsLeft(s, P.Buried(r), me, q, value);
    ParentRuns(s, P.Buried(r), P.HandOver(r), me, q, value);
  }

  lemma OneHome(s: P.Procs, q: nat)
    requires I.Inv(s) && q in s.pcb
    ensures q in s.home && forall p <- s.pcb :: p in s.home && (s.home[p] == s.home[q] ==> p == q)
  {
    assert I.Lives(s, q);
    forall p <- s.pcb ensures p in s.home && q in s.home && (s.home[p] == s.home[q] ==> p == q) {
      assert I.Lives(s, p) && I.Lives(s, q);
    }
  }

  lemma HandOverIs(r: P.Procs, me: nat, q: nat)
    requires P.ExitDefined(r) && r.running == Some(me) && P.Heir(r) == Some(q) && me in r.home && q in P.Buried(r)
    requires P.TimersWithout(r.timers, me) == r.timers
    ensures var m := P.Buried(r);
      P.HandOver(r) == r.(running := Some(q), waiting := Minus(r.waiting, [q]),
        pcb := m[q := m[q].(status := P.Running, children := Minus(m[q].children, [me]), retvalue := me)] - {me},
        pcbPool := [r.home[me]] + r.pcbPool,
        deliveries := r.deliveries + [P.Delivery(q, me, m[q].args[1], m[me].returnValue, true)])
  {
    hide P.Buried, P.Heir, Minus, P.Allocated;
  }

  lemma ArgsLeft(s: P.Procs, m: map<nat, P.Pcb>, me: nat, q: nat, value: int)
    requires me in s.pcb && LeftBehind(s, m, me, value) && q in s.pcb && q != me
    ensures m[q].args == s.pcb[q].args && m[me].returnValue == value
  {
    hide Signals, Adopted;
  }

  lemma NothingCleaned(s: P.Procs)
    requires I.Inv(s) && P.CanRun(s)
    ensures P.TimersWithout(s.timers, s.running.value) == s.timers && s.running.value in s.home
  {
    FK.ExitTimersUntouched(s);
    assert I.Lives(s, s.running.value);
  }

  lemma WaiterListed(s: P.Procs, q: nat)
    requires I.Inv(s) && q in s.pcb && s.pcb[q].status == P.Waiting
    ensures q in s.waiting && NoDup(s.waiting)
  {
    assert I.Housed(s, q);
  }

  lemma ParentRuns(s: P.Procs, m: map<nat, P.Pcb>, t: P.Procs, me: nat, q: nat, value: int)
    requires me in s.pcb && LeftBehind(s, m, me, value) && q in s.pcb && q != me && me in s.home && q in s.waiting
    requires t == s.(running := Some(q), waiting := RemovedAt(s.waiting, IndexOf(s.waiting, q)),
      pcb := m[q := m[q].(status := P.Running, children := Minus(m[q].children, [me]), retvalue := me)] - {me},
      pcbPool := [s.home[me]] + s.pcbPool,
      deliveries := s.deliveries + [P.Delivery(q, me, s.pcb[q].args[1], value, true)])
    requires s.pcb[me].parent == Some(q) && q in s.home
    requires forall p <- s.pcb :: p in s.home && (s.home[p] == s.home[q] ==> p == q)
    ensures TakesOver(s, t, me, q, value)
  {
    hide Signals, Adopted, RemovedAt, IndexOf, Minus;
  }

  // ---------- the descriptors ----------

  /** `me` and all its descriptors are gone; the other descriptors and all resources are still there. */
  ghost predicate Disowned(t: R.Table, u: R.Table, me: nat) {
    && u.files == t.files - {me} && u.order == t.order && u.res.Keys == t.res.Keys
    && (forall d <- u.desc :: d in t.desc && u.desc[d] == t.desc[d])
    && (forall d <- t.desc :: d in u.desc <==> t.desc[d].pid != me)
    && (forall id <- t.res :: u.res[id] == t.res[id].(ptrs := u.res[id].ptrs))
    && u == t.(desc := u.desc, descPool := u.descPool, dptr := u.dptr, ptrPool := u.ptrPool, files := u.files,
               res := u.res)
  }

  lemma {:induction false} CloseAllMeans(t: R.Table, me: nat, ds: seq<nat>)
    requires me in t.files && NoDup(ds) && forall d <- ds :: d in t.desc && t.desc[d].rid in t.res
    ensures var u := R.CloseAll(t, me, ds);
      && u.files - {me} == t.files - {me} && u.order == t.order && u.res.Keys == t.res.Keys
      && (forall d <- u.desc :: d in t.desc && u.desc[d] == t.desc[d])
      && (forall d <- t.desc :: d in u.desc <==> d !in ds)
      && (forall id <- t.res :: u.res[id] == t.res[id].(ptrs := u.res[id].ptrs))
      && u == t.(desc := u.desc, descPool := u.descPool, dptr := u.dptr, ptrPool := u.ptrPool, files := u.files,
                 res := u.res)
    decreases ds
  {
    if ds != [] {
      NoDupTail(ds);
      hide NoDup;
      var v := R.Unlinked(t, me, ds[0]);
      CloseAllMeans(v, me, ds[1..]);
      assert ds == [ds[0]] + ds[1..];
      assert v.files - {me} == t.files - {me};
    }
  }

  lemma AllDisowned(t: R.Table, me: nat)
    requires J.TableInv(t) && me in t.files && R.WellLinked(t) && NoDup(t.files[me].descs)
    ensures Disowned(t, R.FreeProcess(R.CloseAll(t, me, t.files[me].descs), me), me)
  {
    hide J.Names, J.Crossed, J.Pooled, J.Queued, J.Books, NoDup;
    CloseAllMeans(t, me, t.files[me].descs);
    assert J.Sound(me, t.files[me], t.desc);
    hide R.CloseAll;
  }

  // ---------- the call ----------

  /** A parent that awaits the caller takes over from it; otherwise the caller stays as a zombie, with its
      descriptors. */
  lemma ExitMeans(s: State, value: int)
    requires KernelInv(s) && Enabled(s, Exit(value))
    ensures var me, t := s.ps.running.value, Step(s, Exit(value));
      && me in s.ps.pcb && s.ps.pcb[me].parent.Some? && me in s.ps.home
      && var q := s.ps.pcb[me].parent.value;
      if Awaits(s.ps, q, me) then q in s.ps.waiting && TakesOver(s.ps, t.ps, me, q, value) && Disowned(s.rs, t.rs, me)
      else s.ps.ready != [] && Retires(s.ps, t.ps, me, value) && t.rs == s.rs
  {
    hide KernelInv, I.Inv, P.Buried, P.Heir, P.ExitDefined, P.Exit, P.HandOver, P.BecomeZombie, R.CloseAll;
    hide TakesOver, Retires, R.WellLinked, P.Allocated;
    var e, me := Exit(value), s.ps.running.value;
    Calling(s, e);
    var r := Recorded(s.ps, e);
    InvHalves(s.(ps := r));
    assert Recording(s.ps, r, me, DSOS_CALL_EXIT, [value]);
    WhoAwaits(s.ps, r, me, value);
    FK.ExitCases(r);
    ExitPids(r);
    NothingCleaned(r);
    if FK.HandsOver(r) {
      HandOverMeans(s.ps, r, me, value);
      AllDisowned(s.rs, me);
    } else {
      StayIsDefined(r);
      ZombieMeans(s.ps, r, me, value);
    }
  }

  lemma StayIsDefined(r: P.Procs)
    requires P.ExitDefined(r) && !FK.HandsOver(r)
    ensures r.ready != []
  {
  }
}
