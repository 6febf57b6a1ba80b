// When the number of kernel pages is not a multiple of 8, one frame comes to back two pages of a process
// (source/kernel/memory.c:109-124 and 242-307).
module VmemClash {
  import opened Basics
  import opened BitSets
  import opened Frames
  import opened Paging
  import opened Spaces
  import opened Vmem
  import opened VmemUndo

  // A page of a process takes the lowest free user frame, and no other.
  lemma MapOneTakes(L: Layout, vm: Vm, o: Owners, q: nat, k: nat)
    requires CoreOk(L, vm, o) && vm.current.Some? && UserPage(q) && FrameAt(vm.phys, vm.cr3, q) == None
    requires MapOne(L, vm, false, q).Go? && vm.pools.user == Interval(0, k)
    ensures FrameAt(MapOne(L, vm, false, q).vm.phys, vm.cr3, q) == Some(L.UserFirst() + k)
    ensures MapOne(L, vm, false, q).vm.pools.user == Interval(0, k + 1)
  {
    hide MapOne, TreeOk, PoolsOk, FrameAt, GetFrame, Interval, HasTable;
    MapOneFrame(L, vm, o, q);
    LowestFree(L, vm.pools, k);
    if HasTable(vm.phys, vm.cr3, q) { MapOneHere(L, vm, o, q); } else { MapOneNewTable(L, vm, o, q); }
  }

  lemma LowestFree(L: Layout, p: Pools, k: nat)
    requires GetFrame(L, p, false).Some? && p.user == Interval(0, k)
    ensures GetFrame(L, p, false).value.0 == L.UserFirst() + k && GetFrame(L, p, false).value.1.user == Interval(0, k + 1)
    ensures forall q: Pools | q.user == Interval(0, k + 1) && GetFrame(L, q, true).Some? :: GetFrame(L, q, true).value.1.user == q.user
  {
    ScanOneExact(p.user, 8 * L.UserBytes());
    assert Interval(0, k) + {k} == Interval(0, k + 1);
  }

  // The frame behind user page u of the current process.
  function PageFrame(vm: Vm, u: nat): Option<nat>
  {
    if Managed(vm.dirs, User(Who(vm), u)) then Backing(vm.phys, vm.dirs, User(Who(vm), u)) else None
  }

  // Pages q, q+1, ... lie on user frames k, k+1, ...
  ghost predicate InOrder(L: Layout, vm: Vm, q: nat, n: nat, k: nat)
  {
    forall u: nat | q <= u < q + n :: PageFrame(vm, u) == Some(L.UserFirst() + k + (u - q))
  }

  lemma NoneInOrder(L: Layout, vm: Vm, q: nat, k: nat)
    ensures InOrder(L, vm, q, 0, k)
  {
  }

  lemma OneMoreInOrder(L: Layout, vm: Vm, q: nat, n: nat, k: nat)
    requires 0 < n && PageFrame(vm, q) == Some(L.UserFirst() + k) && InOrder(L, vm, q + 1, n - 1, k + 1)
    ensures InOrder(L, vm, q, n, k)
  {
    hide PageFrame;
  }

  // A run of pages takes the lowest free user frames in order.
  lemma {:induction false} MapRunTakes(L: Layout, vm: Vm, o: Owners, q: nat, n: nat, k: nat)
    requires CoreOk(L, vm, o) && vm.current.Some? && USER_BASE <= q && q + n <= KERNEL_BASE
    requires Unmapped(vm.phys, vm.dirs, false, Who(vm), q, n) && MapRun(L, vm, false, q, n).Go? && vm.pools.user == Interval(0, k)
    ensures MapRun(L, vm, false, q, n).vm.pools.user == Interval(0, k + n) && InOrder(L, MapRun(L, vm, false, q, n).vm, q, n, k)
    decreases n
  {
    hide CoreOk, Unmapped, MapOne, Interval, InOrder, PageFrame;
    if n == 0 {
      NoneInOrder(L, vm, q, k);
    } else {
      var o1 := FirstThenRest(L, vm, o, q, n, k);
      MapRunTakes(L, MapOne(L, vm, false, q).vm, o1, q + 1, n - 1, k + 1);
      OneMoreInOrder(L, MapRun(L, vm, false, q, n).vm, q, n, k);
    }
  }

  lemma FirstThenRest(L: Layout, vm: Vm, o: Owners, q: nat, n: nat, k: nat) returns (o1: Owners)
    requires CoreOk(L, vm, o) && vm.current.Some? && 0 < n && USER_BASE <= q && q + n <= KERNEL_BASE
    requires Unmapped(vm.phys, vm.dirs, false, Who(vm), q, n) && MapRun(L, vm, false, q, n).Go? && vm.pools.user == Interval(0, k)
    ensures MapOne(L, vm, false, q).Go?
    ensures var vm1 := MapOne(L, vm, false, q).vm;
            && CoreOk(L, vm1, o1) && vm1.current == vm.current && Unmapped(vm1.phys, vm1.dirs, false, Who(vm1), q + 1, n - 1)
            && MapRun(L, vm1, false, q + 1, n - 1) == MapRun(L, vm, false, q, n) && vm1.pools.user == Interval(0, k + 1)
            && PageFrame(MapRun(L, vm, false, q, n).vm, q) == Some(L.UserFirst() + k)
  {
    hide CoreOk, Maps, MapsRun, Unmapped, MapOne, Managed, Interval;
    var vm1 := MapOne(L, vm, false, q).vm;
    FirstOfRun(L, vm, o, q, n, k);
    UnmappedFirst(vm.phys, vm.dirs, false, Who(vm), q, n);
    o1 := MapOneOk(L, vm, o, false, q);
    UnmappedStep(vm.phys, vm1.phys, vm.dirs, false, Who(vm), q, n);
    var o2 := MapRunOk(L, vm1, o1, false, q + 1, n - 1);
    LaterPages(vm.phys, vm1.phys, MapRun(L, vm1, false, q + 1, n - 1).vm.phys, vm.dirs, Who(vm), q, n);
  }

  lemma FirstOfRun(L: Layout, vm: Vm, o: Owners, q: nat, n: nat, k: nat)
    requires CoreOk(L, vm, o) && vm.current.Some? && 0 < n && USER_BASE <= q && q + n <= KERNEL_BASE
    requires Unmapped(vm.phys, vm.dirs, false, Who(vm), q, n) && MapOne(L, vm, false, q).Go? && vm.pools.user == Interval(0, k)
    ensures Managed(vm.dirs, User(Who(vm), q)) && MapOne(L, vm, false, q).vm.pools.user == Interval(0, k + 1)
    ensures Backing(MapOne(L, vm, false, q).vm.phys, vm.dirs, User(Who(vm), q)) == Some(L.UserFirst() + k)
  {
    hide MapOne, TablesOk, PoolsOk, FrameAt;
    var x := User(Who(vm), q);
    assert Managed(vm.dirs, x) && InRun(false, Who(vm), q, n, x) && Backing(vm.phys, vm.dirs, x) == None;
    MapOneTakes(L, vm, o, q, k);
    UnmappedFirst(vm.phys, vm.dirs, false, Who(vm), q, n);
    var o1 := MapOneOk(L, vm, o, false, q);
  }

  // ----- the three calls

  // A process with no page yet, and no user frame in use.
  ghost predicate Untouched(L: Layout, vm: Vm)
  {
    Sound(L, vm) && MayAsk(vm, false) && vm.ubits[vm.current.value] == {} && vm.pools.user == {}
  }

  // Eight pages get the first eight user frames.
  lemma EightPages(L: Layout, vm: Vm, o: Owners) returns (o1: Owners)
    requires VmOk(L, vm, o) && Untouched(L, vm) && Palloc(L, vm, false, 8).Got?
    ensures var vm1 := Palloc(L, vm, false, 8).vm;
            && Palloc(L, vm, false, 8).page == USER_BASE && VmOk(L, vm1, o1) && MayAsk(vm1, false) && vm1.current == vm.current
            && vm1.dirs == vm.dirs && vm1.ubits[vm1.current.value] == Interval(0, 8) && vm1.pools.user == Interval(0, 8)
            && InOrder(L, vm1, USER_BASE, 8, 0)
  {
    hide VmOk, CoreOk, Unmapped, MapRun, MapsRun, InOrder, Palloc;
    FirstCall(L, vm);
    o1 := PallocOk(L, vm, o, false, 8);
    var w := WithBits(vm, false, Interval(0, 8), {});
    VmHasCore(L, vm, o);
    CoreOkBits(L, vm, w, o);
    MapRunTakes(L, w, o, USER_BASE, 8, 0);
  }

  // The scan of an empty bitmap answers 0.
  lemma FirstCall(L: Layout, vm: Vm)
    requires MayAsk(vm, false) && vm.ubits[vm.current.value] == {} && Palloc(L, vm, false, 8).Got?
    ensures Palloc(L, vm, false, 8).page == USER_BASE && Interval(0, 0) == {}
    ensures var w := WithBits(vm, false, Interval(0, 8), {});
            && MapRun(L, w, false, USER_BASE, 8) == Go(Palloc(L, vm, false, 8).vm)
            && Palloc(L, vm, false, 8).vm.ubits[vm.current.value] == Interval(0, 8)
  {
    hide MapRun, Scan;
    FirstRunOfAll(8);
    assert {} + Interval(0, 8) - {} == Interval(0, 8);
  }

  lemma VmHasCore(L: Layout, vm: Vm, o: Owners)
    requires VmOk(L, vm, o)
    ensures CoreOk(L, vm, o) && |vm.ubits| == |vm.dirs|
  {
  }

  lemma FirstRunOfAll(n: nat)
    requires 2 <= n <= USER_BITS
    ensures Scan({}, USER_BITS, n) == Found(0) && Interval(0, 0) == {}
  {
    FirstRunUnique({}, 0, USER_BITS + 1, n, 0);
  }

  // Giving the first page back clears the bit of another frame.
  lemma FirstBack(L: Layout, vm: Vm, o: Owners) returns (o': Owners)
    requires VmOk(L, vm, o) && MayAsk(vm, false) && L.kernelPages % 8 != 0 && vm.pools.user == Interval(0, 8)
    requires vm.ubits[vm.current.value] == Interval(0, 8)
    requires InOrder(L, vm, USER_BASE, 8, 0)
    ensures Pfree(L, vm, false, USER_BASE, 1).Go?
    ensures var vm' := Pfree(L, vm, false, USER_BASE, 1).vm;
            && TreeOk(L, vm', o') && BitsOk(L, vm') && MayAsk(vm', false) && vm'.current == vm.current && vm'.dirs == vm.dirs
            && vm'.ubits[vm'.current.value] == Interval(1, 7) && vm'.pools.user == Interval(0, 8) - {L.kernelPages % 8}
            && PageFrame(vm', USER_BASE) == None && InOrder(L, vm', USER_BASE + 1, 7, 1)
  {
    hide VmOk, TreeOk, BitsOk, Pfree, Removable, UnmapsRun, InOrder, PageFrame;
    VmHasTree(L, vm, o);
    CurrentProcess(L, vm, o);
    MappedFirst(L, vm);
    o' := PfreeTree(L, vm, o, false, USER_BASE, 1);
    PutFirst(L, vm, o);
    var vm' := Pfree(L, vm, false, USER_BASE, 1).vm;
    assert Interval(0, 8) + {} - Interval(0, 1) == Interval(1, 7);
    OthersStay(L, vm, vm');
  }

  lemma MappedFirst(L: Layout, vm: Vm)
    requires vm.current.Some? && Who(vm) < |vm.dirs| && InOrder(L, vm, USER_BASE, 8, 0)
    ensures PageFrame(vm, USER_BASE) == Some(L.UserFirst()) && Removable(vm.phys, vm.dirs, false, Who(vm), USER_BASE, 1)
  {
    assert PageFrame(vm, USER_BASE) == Some(L.UserFirst());
    hide InOrder, FrameAt;
  }

  lemma OthersStay(L: Layout, vm: Vm, vm': Vm)
    requires vm'.dirs == vm.dirs && vm'.current == vm.current && InOrder(L, vm, USER_BASE, 8, 0)
    requires UnmapsRun(vm.phys, vm'.phys, vm.dirs, false, Who(vm), USER_BASE, 1)
    ensures PageFrame(vm', USER_BASE) == None && InOrder(L, vm', USER_BASE + 1, 7, 1)
  {
    hide FrameAt;
    forall u: nat | USER_BASE <= u < USER_BASE + 8 ensures PageFrame(vm', u) == if u == USER_BASE then None else PageFrame(vm, u) {
    }
  }

  lemma PutFirst(L: Layout, vm: Vm, o: Owners)
    requires TreeOk(L, vm, o) && BitsOk(L, vm) && MayAsk(vm, false) && L.kernelPages % 8 != 0 && vm.pools.user == Interval(0, 8)
    requires Removable(vm.phys, vm.dirs, false, Who(vm), USER_BASE, 1) && PageFrame(vm, USER_BASE) == Some(L.UserFirst())
    ensures Pfree(L, vm, false, USER_BASE, 1).Go?
    ensures Pfree(L, vm, false, USER_BASE, 1).vm.pools.user == Interval(0, 8) - {L.kernelPages % 8}
  {
    hide TreeOk, BitsOk, Removable, FreeOne, VirtualAddrToPhysicAddr;
    FirstPage(L, vm, o, false, USER_BASE, 1);
    var f := FreeOneTree(L, vm, o, false, USER_BASE);
    assert FreeRun(L, FreeOne(L, vm, true, USER_BASE).vm, true, USER_BASE + 1, 0) == Go(FreeOne(L, vm, true, USER_BASE).vm);
    SpilledBit(L, vm.pools);
  }

  lemma SpilledBit(L: Layout, p: Pools)
    requires L.kernelPages % 8 != 0
    ensures PutFrame(L, p, L.UserFirst()).user == p.user - {L.kernelPages % 8}
  {
  }

  // The next page gets that frame.
  lemma NextPage(L: Layout, vm: Vm, o: Owners, r: nat)
    requires TreeOk(L, vm, o) && BitsOk(L, vm) && MayAsk(vm, false) && 0 < r < 8 && vm.pools.user == Interval(0, 8) - {r}
    requires 1 <= L.UserBytes() && vm.ubits[vm.current.value] == Interval(1, 7) && PageFrame(vm, USER_BASE) == None
    requires forall u: nat | USER_BASE < u < USER_BASE + 8 :: PageFrame(vm, u).Some?
    ensures Palloc(L, vm, false, 1).Got? && Palloc(L, vm, false, 1).page == USER_BASE
    ensures var vm' := Palloc(L, vm, false, 1).vm;
            && vm'.current == vm.current && vm'.dirs == vm.dirs && PageFrame(vm', USER_BASE) == Some(L.UserFirst() + r)
            && forall u: nat | USER_BASE < u < USER_BASE + 8 :: PageFrame(vm', u) == PageFrame(vm, u)
  {
    hide TreeOk, BitsOk, MapOne, HasTable, FrameAt;
    ScanOneExact(Interval(1, 7), USER_BITS);
    assert Scan(Interval(1, 7), USER_BITS, 1) == Found(0);
    var w := WithBits(vm, false, Interval(0, 1), {});
    TreeOkBits(L, vm, w, o);
    assert PageFrame(vm, USER_BASE + 1).Some?;
    SameTable(vm, USER_BASE, USER_BASE + 1);
    MapAgain(L, w, o, r);
    assert MapRun(L, MapOne(L, w, false, USER_BASE).vm, false, USER_BASE + 1, 0) == Go(MapOne(L, w, false, USER_BASE).vm);
  }

  // Pages of one table: if one is mapped, the table is there for the other.
  lemma SameTable(vm: Vm, q: nat, u: nat)
    requires q / 1024 == u / 1024 && PageFrame(vm, u).Some?
    ensures HasTable(vm.phys, Dir(vm.phys, vm.dirs[Who(vm)]), q)
  {
  }

  lemma MapAgain(L: Layout, vm: Vm, o: Owners, r: nat)
    requires TreeOk(L, vm, o) && vm.current.Some? && 0 < r < 8 && vm.pools.user == Interval(0, 8) - {r} && 1 <= L.UserBytes()
    requires PageFrame(vm, USER_BASE) == None && HasTable(vm.phys, Dir(vm.phys, vm.dirs[vm.current.value]), USER_BASE)
    ensures MapOne(L, vm, false, USER_BASE).Go?
    ensures var vm' := MapOne(L, vm, false, USER_BASE).vm;
            && vm'.current == vm.current && vm'.dirs == vm.dirs && PageFrame(vm', USER_BASE) == Some(L.UserFirst() + r)
            && forall u: nat | USER_BASE < u < USER_BASE + 8 :: PageFrame(vm', u) == PageFrame(vm, u)
  {
    hide MapOne, TablesOk, FrameAt, HasTable, GetFrame;
    var c := vm.current.value;
    OnlyFree(L, vm.pools, r);
    assert Managed(vm.dirs, User(c, USER_BASE));
    MapOneHere(L, vm, o, USER_BASE);
    EntryParts(L.UserFirst() + r);
    UserTableWrite(L, vm.phys, vm.dirs, o, c, USER_BASE, Entry(L.UserFirst() + r, C_FLAGS));
  }

  lemma OnlyFree(L: Layout, p: Pools, r: nat)
    requires 0 < r < 8 && p.user == Interval(0, 8) - {r} && 1 <= L.UserBytes()
    ensures GetFrame(L, p, false).Some? && GetFrame(L, p, false).value.0 == L.UserFirst() + r
  {
    ScanOneExact(p.user, 8 * L.UserBytes());
    assert Scan(p.user, 8 * L.UserBytes(), 1) == Found(r);
  }

  // A process takes eight pages, gives the first back and takes one more: that page and one of the
  // others then lie on one frame.
  lemma TwoPagesOneFrame(L: Layout, vm: Vm)
    requires Untouched(L, vm) && L.kernelPages % 8 != 0 && Palloc(L, vm, false, 8).Got?
    ensures var vm1 := Palloc(L, vm, false, 8).vm;
            && MayAsk(vm1, false) && Pfree(L, vm1, false, USER_BASE, 1).Go?
            && var vm2 := Pfree(L, vm1, false, USER_BASE, 1).vm;
               && MayAsk(vm2, false) && Palloc(L, vm2, false, 1).Got?
               && var vm3 := Palloc(L, vm2, false, 1).vm;
                  && PageFrame(vm3, USER_BASE).Some? && PageFrame(vm3, USER_BASE) == PageFrame(vm3, USER_BASE + L.kernelPages % 8)
                  && !Sound(L, vm3)
  {
    hide VmOk, TreeOk, BitsOk, Palloc, Pfree, PageFrame, Sound;
    var o: Owners :| VmOk(L, vm, o) by { SomeOwners(L, vm); }
    var r := L.kernelPages % 8;
    var o1 := EightPages(L, vm, o);
    var vm1 := Palloc(L, vm, false, 8).vm;
    UserPoolThere(L, vm1, o1);
    var o2 := FirstBack(L, vm1, o1);
    var vm2 := Pfree(L, vm1, false, USER_BASE, 1).vm;
    assert forall u: nat | USER_BASE < u < USER_BASE + 8 :: PageFrame(vm2, u).Some?;
    NextPage(L, vm2, o2, r);
    var vm3 := Palloc(L, vm2, false, 1).vm;
    assert PageFrame(vm3, USER_BASE + r) == PageFrame(vm2, USER_BASE + r) == Some(L.UserFirst() + r);
    SharedIsUnsound(L, vm3, USER_BASE, USER_BASE + r);
  }

  lemma SomeOwners(L: Layout, vm: Vm)
    requires Sound(L, vm)
    ensures exists o: Owners :: VmOk(L, vm, o)
  {
  }

  lemma UserPoolThere(L: Layout, vm: Vm, o: Owners)
    requires VmOk(L, vm, o) && vm.pools.user == Interval(0, 8)
    ensures 1 <= L.UserBytes()
  {
    assert 0 in vm.pools.user;
  }

  lemma SharedIsUnsound(L: Layout, vm: Vm, u: nat, t: nat)
    requires u != t && PageFrame(vm, u).Some? && PageFrame(vm, u) == PageFrame(vm, t)
    ensures !Sound(L, vm)
  {
    if Sound(L, vm) { SoundIsolation(L, vm, User(Who(vm), u), User(Who(vm), t)); }
  }
}
