/** What the process half keeps on the heap: the PCBs and the global lists they are on, the lists of children, and the
    timer list. */
module ProcessStores {
  import opened Constants
  import opened Sequences
  import opened LinkedLists
  import opened BlockStores
  import opened ProcessTables
  import opened ChildLists
  import opened TimerLists
  import P = Processes

  /** The heap as `Processes` sees it. */
  datatype Shape = Shape(
    ready: seq<nat>, waiting: seq<nat>, zombies: seq<nat>, timers: seq<P.Timer>,
    pcb: map<nat, P.Pcb>, home: map<nat, nat>, tenant: map<nat, nat>, pcbPool: seq<nat>, timerFree: nat, ptrFree: nat)

  /** Where the static buffers of PCBs, PCB pointers and timers lie, and how large their blocks are. */
  datatype ProcessLayout = ProcessLayout(pcbBuffer: int, pcbSize: int, ptrBuffer: int, ptrSize: int,
                                         timerBuffer: int, timerSize: int)
  {
    predicate Sound() { pcbSize > 0 && ptrSize > 0 && timerSize > 0 }
  }

  ghost function BootedShape(): Shape {
    Shape([], [], [], [], map[], map[], map[], Upto(MAX_NUM_PROCESSES), MAX_NUM_PROCESSES, MAX_NUM_PROCESSES)
  }

  function Joined(f: Fields, children: seq<nat>): P.Pcb {
    P.Pcb(f.status, f.parent, children, f.hasTimer, f.signals, f.signalsMask, f.returnValue, f.syscallNum, f.args,
          f.retvalue)
  }

  function FieldsOf(p: P.Pcb): Fields {
    Fields(p.status, p.parent, p.hasTimer, p.signals, p.signalsMask, p.returnValue, p.syscallNum, p.args, p.retvalue)
  }

  ghost function Lodger(s: Shape, p: nat): Shape
    requires s.pcbPool != []
  {
    s.(home := s.home[p := s.pcbPool[0]], tenant := s.tenant[s.pcbPool[0] := p], pcbPool := s.pcbPool[1..])
  }

  ghost function AllJoined(regs: map<nat, Fields>, kids: map<nat, seq<nat>>): map<nat, P.Pcb>
    requires kids.Keys == regs.Keys
  {
    map p | p in regs :: Joined(regs[p], kids[p])
  }

  class ProcessStore {
    const table: ProcessTable
    const family: ChildTable
    const timers: TimerList
    ghost var Repr: set<object>

    ghost predicate Valid()
      reads this, Repr
    {
      Parted() && family.Kids().Keys == table.Regs().Keys
    }

    ghost predicate Parted()
      reads this, Repr
    {
      Rooted() && table.Valid() && family.Valid() && timers.Valid()
    }

    /** The three parts share nothing, and are all in `Repr`. */
    ghost predicate Rooted()
      reads this, Repr
    {
      && {this, table, table.ready, table.waiting, table.zombies, table.frames} <= Repr
      && {family, family.store, family.store.pool, timers, timers.list, timers.store, timers.store.pool} <= Repr
      && RootedIn(Repr)
    }

    ghost predicate RootedIn(all: set<object>)
      reads table`pool, table.frames`freeList, family.store`lists, family.store.pool`freeList, timers.store`lists
      reads timers.store.pool`freeList
    {
      && table.Footprint() + family.Footprint() + timers.Footprint() <= all
      && table.Footprint() !! family.Footprint() && table.Footprint() !! timers.Footprint()
      && family.Footprint() !! timers.Footprint()
      && this !in table.Footprint() + family.Footprint() + timers.Footprint()
    }

    ghost function View(): Shape
      reads this, Repr
      requires Valid()
    {
      Around().(pcb := AllJoined(table.Regs(), family.Kids()))
    }

    /** All but the PCBs. */
    ghost function Around(): Shape
      reads table`home, table`tenant, table.frames`free, table.ready, table.waiting, table.zombies
      reads timers.store, timers.store.pool, timers.store.pool.freeList, timers.store.memory, timers.store.lists
      reads family.store.pool`free
      requires timers.Valid()
    {
      Shape(Ids(table.ready.items), Ids(table.waiting.items), Ids(table.zombies.items), timers.Timers(), map[],
            table.home, table.tenant, table.frames.free, timers.Room(), family.Room())
    }

    lemma Parts()
      requires Parted()
      ensures table.Valid() && family.Valid() && timers.Valid()
      ensures this in Repr && table in Repr && family in Repr && family.Footprint() <= Repr
      ensures table.frames in Repr && table.frames.freeList in Repr && table.pool <= Repr
    {
      hide ProcessTable.Valid, ChildTable.Valid, TimerList.Valid;
    }

    /** List_init of the global lists, Timer_init and PCBPtr's half of PCB_init. */
    constructor (l: ProcessLayout)
      requires l.Sound()
      ensures Valid() && fresh(Repr - {this})
      ensures View() == BootedShape()
    {
      hide ProcessTable.Valid, ChildTable.Valid, TimerList.Valid, ChildTable.Kids, TimerList.Timers;
      hide Ids;
      hide ProcessTable.Footprint, ChildTable.Footprint, TimerList.Footprint, Valid, View;
      var t, f, ts := NewParts(l);
      table, family, timers := t, f, ts;
      new;
      Own();
    }

    static method NewParts(l: ProcessLayout)
      returns (t: ProcessTable, f: ChildTable, ts: TimerList)
      requires l.Sound()
      ensures t.Valid() && t.blocks == map[] && t.home == t.tenant == map[] && t.pool == {}
      ensures t.frames.free == Upto(MAX_NUM_PROCESSES)
      ensures t.ready.items == t.waiting.items == t.zombies.items == []
      ensures f.Valid() && f.Kids() == map[] && f.Room() == MAX_NUM_PROCESSES
      ensures ts.Valid() && ts.Timers() == [] && ts.Room() == MAX_NUM_PROCESSES && fresh(ts)
      ensures fresh(t.Footprint()) && fresh(f.Footprint()) && fresh(ts.Footprint())
      ensures t.Footprint() !! f.Footprint() && t.Footprint() !! ts.Footprint() && f.Footprint() !! ts.Footprint()
    {
      hide ProcessTable.Valid, ChildTable.Valid, TimerList.Valid, ChildTable.Kids, TimerList.Timers;
      hide Ids;
      hide ChildTable.Footprint, TimerList.Footprint, Upto;
      t := new ProcessTable(l.pcbBuffer, l.pcbSize);
      f, ts := NewBlocks(l);
    }

    static method NewBlocks(l: ProcessLayout) returns (f: ChildTable, ts: TimerList)
      requires l.Sound()
      ensures f.Valid() && f.Kids() == map[] && f.Room() == MAX_NUM_PROCESSES
      ensures ts.Valid() && ts.Timers() == [] && ts.Room() == MAX_NUM_PROCESSES && fresh(ts)
      ensures fresh(f.Footprint()) && fresh(ts.Footprint()) && f.Footprint() !! ts.Footprint()
    {
      hide ChildTable.Valid, TimerList.Valid, ChildTable.Kids, TimerList.Timers, TimerList.Footprint;
      f := new ChildTable(l.ptrBuffer, l.ptrSize);
      ts := new TimerList(l.timerBuffer, l.timerSize);
    }

    ghost method Own()
      requires table.Valid() && family.Valid() && timers.Valid()
      requires table.Footprint() !! family.Footprint() && table.Footprint() !! timers.Footprint()
      requires family.Footprint() !! timers.Footprint()
      requires table.ready.items == table.waiting.items == table.zombies.items == []
      requires table.blocks == map[] && table.pool == {} && table.home == table.tenant == map[]
      requires table.frames.free == Upto(MAX_NUM_PROCESSES) && family.Kids() == map[] && timers.Timers() == []
      requires timers.Room() == family.Room() == MAX_NUM_PROCESSES
      modifies this`Repr
      ensures Valid() && Repr == {this, timers} + table.Footprint() + family.Footprint() + timers.Footprint()
      ensures View() == BootedShape()
    {
      hide Upto, Ids, ProcessTable.Valid, ChildTable.Valid, BlockStore.Valid, ChildTable.Kids, TimerList.Timers;
      Repr := {this, timers} + table.Footprint() + family.Footprint() + timers.Footprint();
    }

    // ---------- PCBs ----------

    /** Reads the PCB of `p`. */
    method Load(p: nat) returns (f: Fields)
      requires Valid() && p in View().pcb
      ensures f == FieldsOf(old(View()).pcb[p])
    {
      hide ProcessTable.Valid, ChildTable.Valid, TimerList.Valid, ChildTable.Kids, TimerList.Timers;
      hide Ids;
      return table.blocks[p].value;
    }

    /** Overwrites the PCB of `p`. */
    method Store(p: nat, f: Fields)
      requires Valid() && p in View().pcb
      modifies Repr
      ensures Valid() && Repr == old(Repr) && p in old(View()).pcb
      ensures View() == old(View()).(pcb := old(View()).pcb[p := Joined(f, old(View()).pcb[p].children)])
    {
      hide Parted, ChildTable.Kids, AllJoined;
      Parts();
      RegsJoined(table.Regs(), family.Kids(), p, f);
      StoreFields(p, f);
    }

    method StoreFields(p: nat, f: Fields)
      requires Parted() && p in table.Regs()
      modifies table.pool`value
      ensures Parted() && Repr == old(Repr) && table.Regs() == old(table.Regs())[p := f]
      ensures family.Kids() == old(family.Kids()) && Around() == old(Around())
    {
      hide ProcessTable.Valid, ChildTable.Valid, TimerList.Valid, ChildTable.Kids, TimerList.Timers;
      hide Ids;
      table.Write(p, f);
    }

    /** PCB_alloc with these values in the fields, and an empty list of children. */
    method Alloc(p: nat, f: Fields)
      requires Valid() && p !in View().pcb && View().pcbPool != []
      modifies Repr
      ensures Valid() && fresh(Repr - old(Repr))
      ensures var v, b := old(View()), old(View()).pcbPool[0];
        View() == v.(pcb := v.pcb[p := Joined(f, [])], home := v.home[p := b], tenant := v.tenant[b := p],
                     pcbPool := v.pcbPool[1..])
    {
      hide Parted, ChildTable.Kids, AllJoined;
      Parts();
      OneMore(table.Regs(), family.Kids(), p, f);
      ghost var pcb := AllocFields(p, f);
      ghost var head := OpenList(p);
      assert Repr - old(Repr) <= pcb + head;
    }

    method AllocFields(p: nat, f: Fields) returns (ghost made: set<object>)
      requires Parted() && p !in table.Regs() && table.frames.free != []
      modifies this`Repr, table, table.frames`size, table.frames`firstIdx, table.frames`free, table.frames.freeList
      ensures Parted() && fresh(made) && Repr == old(Repr) + made && table.Regs() == old(table.Regs())[p := f]
      ensures family.Kids() == old(family.Kids()) && Around() == old(Lodger(Around(), p))
    {
      hide ProcessTable.Valid, ChildTable.Valid, TimerList.Valid, ProcessTable.Regs, ChildTable.Kids, Around, RootedIn;
      made := AllocBlock(p, f);
      Repr := Repr + made;
    }

    method AllocBlock(p: nat, f: Fields) returns (ghost made: set<object>)
      requires Parted() && p !in table.Regs() && table.frames.free != []
      modifies table, table.frames`size, table.frames`firstIdx, table.frames`free, table.frames.freeList
      ensures RootedIn(Repr + made) && table.Valid() && family.Valid() && timers.Valid()
      ensures fresh(made) && table.Regs() == old(table.Regs())[p := f]
      ensures family.Kids() == old(family.Kids()) && Around() == old(Lodger(Around(), p))
    {
      hide ProcessTable.Valid, ChildTable.Valid, TimerList.Valid, ChildTable.Kids, TimerList.Timers;
      hide Ids;
      table.Alloc(p, f);
      made := table.pool - old(table.pool);
    }

    method OpenList(p: nat) returns (ghost made: set<object>)
      requires Parted() && p !in family.Kids()
      modifies this`Repr, family.Footprint()
      ensures Parted() && fresh(made) && Repr == old(Repr) + made && family.Kids() == old(family.Kids())[p := []]
      ensures table.Regs() == old(table.Regs()) && Around() == old(Around())
    {
      hide ProcessTable.Valid, ChildTable.Valid, TimerList.Valid, ProcessTable.Regs, ChildTable.Kids, Around, RootedIn;
      made := OpenHead(p);
      Repr := Repr + made;
    }

    method OpenHead(p: nat) returns (ghost made: set<object>)
      requires Parted() && p !in family.Kids()
      modifies family.Footprint()
      ensures RootedIn(Repr + made) && table.Valid() && family.Valid() && timers.Valid()
      ensures fresh(made) && family.Kids() == old(family.Kids())[p := []]
      ensures table.Regs() == old(table.Regs()) && Around() == old(Around())
    {
      hide ProcessTable.Valid, ChildTable.Valid, TimerList.Valid, ChildTable.Kids, TimerList.Timers;
      hide Ids;
      family.Open(p);
      assert table.Valid() && timers.Valid();
      made := family.Footprint() - old(family.Footprint());
    }

    /** PCB_free: whatever is in the list of children stays in it. */
    method Release(p: nat)
      requires Valid() && p in View().pcb && Unlisted(p)
      modifies Repr
      ensures Valid() && Repr == old(Repr) && p in old(View()).home
      ensures var v := old(View()); View() == v.(pcb := v.pcb - {p}, pcbPool := [v.home[p]] + v.pcbPool)
    {
      hide Parted, ChildTable.Kids, AllJoined;
      Parts();
      OneLess(table.Regs(), family.Kids(), p);
      hide Around;
      ReleaseFields(p);
      CloseList(p);
    }

    method ReleaseFields(p: nat)
      requires Parted() && p in table.Regs() && table.Free(p)
      modifies table, table.frames`size, table.frames`firstIdx, table.frames`free, table.frames.freeList
      ensures Parted() && Repr == old(Repr) && table.Regs() == old(table.Regs()) - {p}
      ensures family.Kids() == old(family.Kids()) && p in old(Around()).home
      ensures Around() == old(Around()).(pcbPool := [old(Around()).home[p]] + old(Around()).pcbPool)
    {
      hide ProcessTable.Valid, ChildTable.Valid, TimerList.Valid, ChildTable.Kids, TimerList.Timers;
      hide Ids;
      table.Release(p);
    }

    method CloseList(p: nat)
      requires Parted()
      modifies family`heads
      ensures Parted() && Repr == old(Repr) && family.Kids() == old(family.Kids()) - {p}
      ensures table.Regs() == old(table.Regs()) && Around() == old(Around())
    {
      hide ProcessTable.Valid, ChildTable.Valid, TimerList.Valid, ChildTable.Kids, TimerList.Timers;
      hide Ids;
      family.Close(p);
    }

    /** What a pointer to the PCB of `p` leads to. */
    method Follow(p: nat) returns (q: Option<nat>)
      requires Valid() && p in View().home && View().home[p] in View().tenant
      ensures var v := old(View()); q == if v.tenant[v.home[p]] in v.pcb then Some(v.tenant[v.home[p]]) else None
    {
      hide ProcessTable.Valid, ChildTable.Valid, TimerList.Valid, ChildTable.Kids, TimerList.Timers;
      q := table.Follow(p);
    }

    // ---------- the global lists ----------

    lemma Heads()
      requires Valid()
      ensures table.ready != table.waiting && table.ready != table.zombies && table.waiting != table.zombies
    {
      hide ChildTable.Valid, TimerList.Valid;
    }

    ghost predicate Global(list: Head) {
      list in {table.ready, table.waiting, table.zombies}
    }

    ghost function ListOf(list: Head, s: Shape): seq<nat> {
      if list == table.ready then s.ready else if list == table.waiting then s.waiting else s.zombies
    }

    ghost function WithList(list: Head, s: Shape, ids: seq<nat>): Shape {
      if list == table.ready then s.(ready := ids) else if list == table.waiting then s.(waiting := ids)
      else s.(zombies := ids)
    }

    ghost predicate Unlisted(p: nat)
      reads this, Repr
      requires Valid()
    {
      p !in View().ready && p !in View().waiting && p !in View().zombies
    }

    lemma Known(p: nat)
      requires Valid()
      ensures p in View().pcb <==> p in table.blocks
    {
      hide ProcessTable.Valid, ChildTable.Valid, TimerList.Valid, ChildTable.Kids, TimerList.Timers;
    }

    /** List_insert at the end of a global list. */
    method InsertLast(list: Head, p: nat)
      requires Valid() && Global(list) && p in View().pcb && Unlisted(p)
      modifies Repr
      ensures Valid() && Repr == old(Repr)
      ensures View() == WithList(list, old(View()), ListOf(list, old(View())) + [p])
    {
      hide ProcessTable.Valid, ChildTable.Valid, TimerList.Valid, ChildTable.Kids, TimerList.Timers;
      hide Ids, AllJoined, ProcessTable.Regs;
      Known(p);
      table.InsertLast(list, p);
    }

    method Insert(list: Head, prev: Option<nat>, p: nat)
      requires Valid() && Global(list) && p in View().pcb && Unlisted(p)
      requires prev.Some? ==> prev.value in ListOf(list, View())
      modifies Repr
      ensures Valid() && Repr == old(Repr)
      ensures View() == WithList(list, old(View()), old(InsertedPid(ListOf(list, View()), prev, p)))
    {
      hide ProcessTable.Valid, ChildTable.Valid, TimerList.Valid, ChildTable.Kids, TimerList.Timers;
      hide Ids, AllJoined, ProcessTable.Regs;
      hide InsertedPid;
      Known(p);
      table.Insert(list, prev, p);
    }

    /** List_detach from a global list. */
    method Detach(list: Head, p: nat)
      requires Valid() && Global(list) && p in ListOf(list, View())
      modifies Repr
      ensures Valid() && Repr == old(Repr)
      ensures View() == WithList(list, old(View()),
        old(RemovedAt(ListOf(list, View()), IndexOf(ListOf(list, View()), p))))
    {
      hide ProcessTable.Valid, ChildTable.Valid, TimerList.Valid, ChildTable.Kids, TimerList.Timers;
      hide Ids, AllJoined, ProcessTable.Regs;
      hide RemovedAt, IndexOf;
      table.Detach(list, p);
    }

    method First(list: Head) returns (p: Option<nat>)
      requires Valid() && Global(list)
      ensures p == if ListOf(list, old(View())) == [] then None else Some(ListOf(list, old(View()))[0])
    {
      hide ChildTable.Valid, TimerList.Valid, ChildTable.Kids, TimerList.Timers, AllJoined;
      return if list.first == null then None else Some(list.first.id);
    }

    // ---------- children ----------

    /** PCBPtr_alloc, and List_insert at the end of the children of `p`. */
    method AddChild(p: nat, child: nat)
      requires Valid() && p in View().pcb && View().ptrFree > 0
      modifies Repr
      ensures Valid() && Repr == old(Repr) && p in old(View()).pcb
      ensures View() == old(View()).(ptrFree := old(View()).ptrFree - 1,
        pcb := WithKids(old(View()).pcb, p, old(View()).pcb[p].children + [child]))
    {
      hide ProcessTable.Valid, ChildTable.Valid, TimerList.Valid, ChildTable.Kids, TimerList.Timers;
      hide Ids;
      hide AllJoined, WithKids, ProcessTable.Regs;
      ghost var kids := family.Kids();
      IsJoined(table.Regs(), kids, p);
      KidsJoined(table.Regs(), kids, p, kids[p] + [child]);
      family.Add(p, child);
    }

    method NoChildren(p: nat) returns (b: bool)
      requires Valid() && p in View().pcb
      ensures b == (old(View()).pcb[p].children == [])
    {
      hide ProcessTable.Valid, ChildTable.Valid, TimerList.Valid, ChildTable.Kids, TimerList.Timers;
      hide Ids;
      b := family.Empty(p);
    }

    /** The first child of `a` becomes the last of `b`. */
    method MoveChild(a: nat, b: nat) returns (child: nat)
      requires Valid() && a in View().pcb && b in View().pcb && a != b && View().pcb[a].children != []
      modifies Repr
      ensures Valid() && Repr == old(Repr) && a in old(View()).pcb && b in old(View()).pcb
      ensures child == old(View()).pcb[a].children[0]
      ensures var m := old(View()).pcb;
        View() == old(View()).(pcb := WithKids(WithKids(m, a, m[a].children[1..]), b, m[b].children + [child]))
    {
      hide ProcessTable.Valid, ChildTable.Valid, TimerList.Valid, ChildTable.Kids, TimerList.Timers;
      hide Ids;
      hide AllJoined, WithKids, ProcessTable.Regs;
      ghost var kids := family.Kids();
      IsJoined(table.Regs(), kids, a);
      IsJoined(table.Regs(), kids, b);
      KidsJoined(table.Regs(), kids, a, kids[a][1..]);
      IsJoined(table.Regs(), kids[a := kids[a][1..]], b);
      KidsJoined(table.Regs(), kids[a := kids[a][1..]], b, kids[b] + [kids[a][0]]);
      child := family.MoveFirst(a, b);
    }

    /** List_detach of a pointer in the list of `p`, and PCBPtr_free. */
    method RemoveChild(p: nat, ptr: Item<nat>, ghost k: nat)
      requires Valid() && p in View().pcb && family.At(p, ptr, k)
      modifies Repr
      ensures Valid() && Repr == old(Repr) && p in old(View()).pcb && k < |old(View()).pcb[p].children|
      ensures View() == old(View()).(ptrFree := old(View()).ptrFree + 1,
        pcb := WithKids(old(View()).pcb, p, RemovedAt(old(View()).pcb[p].children, k)))
    {
      hide ProcessTable.Valid, ChildTable.Valid, TimerList.Valid, ChildTable.Kids, TimerList.Timers;
      hide Ids;
      hide RemovedAt, AllJoined, WithKids, ProcessTable.Regs;
      ghost var kids := family.Kids();
      IsJoined(table.Regs(), kids, p);
      family.Scanned(p, k);
      KidsJoined(table.Regs(), kids, p, RemovedAt(kids[p], k));
      family.Remove(p, ptr, k);
    }

    /** List_detach alone. */
    method LoseChild(p: nat, ptr: Item<nat>, ghost k: nat)
      requires Valid() && p in View().pcb && family.At(p, ptr, k)
      modifies Repr
      ensures Valid() && Repr == old(Repr) && p in old(View()).pcb && k < |old(View()).pcb[p].children|
      ensures View() == old(View()).(pcb := WithKids(old(View()).pcb, p, RemovedAt(old(View()).pcb[p].children, k)))
    {
      hide ProcessTable.Valid, ChildTable.Valid, TimerList.Valid, ChildTable.Kids, TimerList.Timers;
      hide Ids;
      hide RemovedAt, AllJoined, WithKids, ProcessTable.Regs;
      ghost var kids := family.Kids();
      IsJoined(table.Regs(), kids, p);
      family.Scanned(p, k);
      KidsJoined(table.Regs(), kids, p, RemovedAt(kids[p], k));
      family.Lose(p, ptr, k);
    }

    // ---------- scanning the children ----------

    /** PCBPtr_byPID on the children of `p`. */
    method FindChild(p: nat, pid: nat) returns (ptr: Item?<nat>, ghost k: nat)
      requires Valid() && p in View().pcb
      ensures family.At(p, ptr, k) && k == IndexOf(old(View()).pcb[p].children, pid)
      ensures ptr == null <==> pid !in old(View()).pcb[p].children
    {
      hide ProcessTable.Valid, ChildTable.Valid, TimerList.Valid, ChildTable.Kids, TimerList.Timers;
      hide Ids;
      hide AllJoined;
      IsJoined(table.Regs(), family.Kids(), p);
      ptr, k := family.Find(p, pid);
    }

    /** The scan of internal_wait: it ends on the first match, or on the last child. */
    method ScanChildren(p: nat, pid: int) returns (ptr: Item<nat>, ghost k: nat)
      requires Valid() && p in View().pcb && View().pcb[p].children != []
      requires forall c <- View().pcb[p].children :: c in View().pcb
      ensures family.At(p, ptr, k) && k == P.ScanIndex(old(View()).pcb, old(View()).pcb[p].children, pid)
      ensures ptr.value == old(View()).pcb[p].children[k]
    {
      hide Valid, View, P.ScanIndex;
      ghost var m, cs := View().pcb, View().pcb[p].children;
      ghost var i := 0;
      ScanStarts(p);
      ScanFrom(m, cs, 0, pid);
      ptr, k := family.heads[p].first, 0;
      var aux: Item?<nat> := ptr;
      while aux != null
        invariant i <= |cs| && family.At(p, aux, i)
        invariant i > 0 ==> k == i - 1 && family.At(p, ptr, k) && ptr.value == cs[k]
        invariant P.ScanIndex(m, cs, pid) == if i == |cs| then i - 1 else i + P.ScanIndex(m, cs[i..], pid)
        modifies {}
        decreases |cs| - i
      {
        ScanAt(p, i);
        ScanFrom(m, cs, i, pid);
        ptr, k := aux, i;
        var awaited := Load(ptr.value);
        if pid == 0 && awaited.status == P.Zombie {
          return;
        }
        if pid != 0 && ptr.value == pid {
          return;
        }
        aux := aux.next;
        i := i + 1;
      }
      ScanEnds(p, i);
    }

    lemma ScanStarts(p: nat)
      requires Valid() && p in View().pcb && View().pcb[p].children != []
      ensures p in family.heads && family.At(p, family.heads[p].first, 0) && family.heads[p].first != null
    {
      hide ProcessTable.Valid, ChildTable.Valid, TimerList.Valid, ChildTable.Kids, TimerList.Timers;
      hide Ids;
      IsJoined(table.Regs(), family.Kids(), p);
      family.Starts(p);
    }

    lemma ScanAt(p: nat, i: nat)
      requires Valid() && p in View().pcb && p in family.heads && i < |family.heads[p].items|
      ensures i < |View().pcb[p].children| && family.heads[p].items[i].value == View().pcb[p].children[i]
      ensures family.heads[p].items[i].next == ItemAt(family.heads[p].items, i + 1)
    {
      hide ProcessTable.Valid, ChildTable.Valid, TimerList.Valid, ChildTable.Kids, TimerList.Timers;
      hide Ids;
      IsJoined(table.Regs(), family.Kids(), p);
      family.Scanned(p, i);
    }

    lemma ScanEnds(p: nat, i: nat)
      requires Valid() && p in View().pcb && family.At(p, null, i)
      ensures i == |View().pcb[p].children|
    {
      hide ProcessTable.Valid, ChildTable.Valid, TimerList.Valid, ChildTable.Kids, TimerList.Timers;
      hide Ids;
      IsJoined(table.Regs(), family.Kids(), p);
      family.Starts(p);
    }

    // ---------- timers ----------

    /** TimerList_add. */
    method AddTimer(wake: int, pid: nat) returns (added: bool)
      requires Valid()
      modifies Repr
      ensures Valid() && Repr == old(Repr) && added == (old(View()).timerFree > 0)
      ensures View() == if !added then old(View()) else
        old(View()).(timers := P.AddTimer(old(View()).timers, wake, pid), timerFree := old(View()).timerFree - 1)
    {
      hide ProcessTable.Valid, ChildTable.Valid, TimerList.Valid, ChildTable.Kids, TimerList.Timers;
      hide Ids;
      hide P.AddTimer;
      added := timers.Add(wake, pid);
    }

    /** TimerList_current. */
    method Due(time: int) returns (pid: Option<nat>)
      requires Valid()
      ensures var ts := old(View()).timers; pid == if ts != [] && time >= ts[0].wake then Some(ts[0].pid) else None
    {
      hide ProcessTable.Valid, ChildTable.Valid, TimerList.Valid, ChildTable.Kids, TimerList.Timers;
      pid := timers.Current(time);
    }

    /** TimerList_removeCurrent. */
    method RemoveCurrent()
      requires Valid() && View().timers != []
      modifies Repr
      ensures Valid() && Repr == old(Repr)
      ensures View() == old(View()).(timers := old(View()).timers[1..], timerFree := old(View()).timerFree + 1)
    {
      hide ProcessTable.Valid, ChildTable.Valid, TimerList.Valid, ChildTable.Kids, TimerList.Timers;
      hide Ids;
      timers.RemoveCurrent();
    }

    /** The cleanup of the timers of a process that exits. */
    method CleanTimers(pid: nat)
      requires Valid()
      modifies Repr
      ensures Valid() && Repr == old(Repr)
      ensures var ts, without := old(View()).timers, P.TimersWithout(old(View()).timers, pid);
        View() == old(View()).(timers := without, timerFree := old(View()).timerFree + |ts| - |without|)
    {
      hide ProcessTable.Valid, ChildTable.Valid, TimerList.Valid, ChildTable.Kids, TimerList.Timers;
      hide Ids;
      hide P.TimersWithout;
      timers.Clean(pid);
    }
  }

  lemma ScanFrom(m: map<nat, P.Pcb>, cs: seq<nat>, i: nat, pid: int)
    requires cs != [] && i < |cs| && forall c <- cs :: c in m
    ensures cs[0..] == cs && cs[i] in m
    ensures if P.ScanStops(m, cs[i], pid) || i + 1 == |cs| then P.ScanIndex(m, cs[i..], pid) == 0
            else P.ScanIndex(m, cs[i..], pid) == 1 + P.ScanIndex(m, cs[i + 1..], pid)
  {
    assert cs[i..][0] == cs[i] && cs[i..][1..] == cs[i + 1..];
  }

  lemma IsJoined(regs: map<nat, Fields>, kids: map<nat, seq<nat>>, p: nat)
    requires kids.Keys == regs.Keys
    ensures AllJoined(regs, kids).Keys == regs.Keys
    ensures p in regs ==> AllJoined(regs, kids)[p] == Joined(regs[p], kids[p])
  {
  }

  lemma KidsJoined(regs: map<nat, Fields>, kids: map<nat, seq<nat>>, p: nat, children: seq<nat>)
    requires kids.Keys == regs.Keys && p in AllJoined(regs, kids)
    ensures p in kids && AllJoined(regs, kids)[p].children == kids[p]
    ensures AllJoined(regs, kids[p := children]) == WithKids(AllJoined(regs, kids), p, children)
  {
  }

  lemma RegsJoined(regs: map<nat, Fields>, kids: map<nat, seq<nat>>, p: nat, f: Fields)
    requires kids.Keys == regs.Keys && p in AllJoined(regs, kids)
    ensures p in regs && kids.Keys == regs[p := f].Keys
    ensures AllJoined(regs[p := f], kids) == AllJoined(regs, kids)[p := Joined(f, AllJoined(regs, kids)[p].children)]
  {
  }

  lemma OneMore(regs: map<nat, Fields>, kids: map<nat, seq<nat>>, p: nat, f: Fields)
    requires kids.Keys == regs.Keys && p !in AllJoined(regs, kids)
    ensures p !in regs && kids[p := []].Keys == regs[p := f].Keys
    ensures AllJoined(regs[p := f], kids[p := []]) == AllJoined(regs, kids)[p := Joined(f, [])]
  {
  }

  lemma OneLess(regs: map<nat, Fields>, kids: map<nat, seq<nat>>, p: nat)
    requires kids.Keys == regs.Keys
    ensures (kids - {p}).Keys == (regs - {p}).Keys
    ensures p in AllJoined(regs, kids) <==> p in regs
    ensures AllJoined(regs - {p}, kids - {p}) == AllJoined(regs, kids) - {p}
  {
  }

  ghost function WithKids(m: map<nat, P.Pcb>, p: nat, children: seq<nat>): map<nat, P.Pcb>
    requires p in m
  {
    m[p := m[p].(children := children)]
  }
}
