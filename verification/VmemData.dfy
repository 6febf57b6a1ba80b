// The contents of pages: no page operation writes into a page that stays mapped
// (source/kernel/memory.c:127-162 and 242-307, source/userprog/process.c:39-60 and 96-106).
module VmemData {
  import opened Basics
  import opened BitSets
  import opened Frames
  import opened Paging
  import opened Spaces
  import opened Vmem

  // A mapped page that holds data: no directory.
  predicate DataPage(vm: Vm, x: Place)
  {
    Managed(vm.dirs, x) && Backing(vm.phys, vm.dirs, x).Some? && (x.Kernel? ==> x.q !in vm.dirs)
  }

  // x is still mapped, to the same frame, with the same contents.
  ghost predicate Preserved(vm: Vm, vm': Vm, x: Place)
    requires DataPage(vm, x)
  {
    && DataPage(vm', x) && Backing(vm'.phys, vm'.dirs, x) == Backing(vm.phys, vm.dirs, x)
    && SameFrame(vm.phys, vm'.phys, Backing(vm.phys, vm.dirs, x).value)
  }

  lemma PreservedStep(vm: Vm, vm1: Vm, vm2: Vm, x: Place)
    requires DataPage(vm, x) && Preserved(vm, vm1, x) && Preserved(vm1, vm2, x)
    ensures Preserved(vm, vm2, x)
  {
    var f := Backing(vm.phys, vm.dirs, x).value;
    forall a: nat | f * DIRECTORY <= a < (f + 1) * DIRECTORY ensures Load(vm2.phys, a) == Load(vm.phys, a) {
      assert Load(vm1.phys, a) == Load(vm.phys, a);
    }
  }

  // Its frame lies above the boot tables, and is no directory and no page table.
  lemma DataFrame(L: Layout, vm: Vm, o: Owners, x: Place)
    requires TreeOk(L, vm, o) && DataPage(vm, x)
    ensures var f := Backing(vm.phys, vm.dirs, x).value;
            && KERNEL_FIRST <= f && f in o && !o[f].Table?
            && (forall p: nat | p < |vm.dirs| :: Dir(vm.phys, vm.dirs[p]) != f)
  {
    var f := Backing(vm.phys, vm.dirs, x).value;
    var w := if x.Kernel? then KPage(x.q) else UPage(x.p, x.q);
    assert Owns(o, f, w) && OwnerOk(L, vm.phys, vm.dirs, f, w);
    forall p: nat | p < |vm.dirs| ensures Dir(vm.phys, vm.dirs[p]) != f {
      DirIsOwned(L, vm.phys, vm.dirs, o, p);
    }
  }

  // ----- the three kinds of write

  lemma KernelWriteMisses(m: Memory, q: nat, e: nat, f: nat)
    requires KernelPage(q) && KERNEL_FIRST <= f
    ensures SameFrame(m, m[KWord(q) := e], f)
  {
    assert KWord(q) / DIRECTORY < KERNEL_FIRST;
    WriteElsewhere(m, KWord(q), e, f);
  }

  lemma TableWriteMisses(m: Memory, d: nat, q: nat, e: nat, f: nat)
    requires HasTable(m, d, q) && FrameOf(Load(m, PdeWord(d, q))) != f
    ensures SameFrame(m, SetPte(m, d, q, e), f)
  {
    var t := FrameOf(Load(m, PdeWord(d, q)));
    assert PteWord(m, d, q) == t * DIRECTORY + q % 1024 && PteWord(m, d, q) / DIRECTORY == t;
    WriteElsewhere(m, PteWord(m, d, q), e, f);
  }

  lemma NewTableMisses(m: Memory, d: nat, q: nat, t: nat, e: nat, f: nat)
    requires q / 1024 < WINDOW && t != d && t != f && d != f
    ensures SameFrame(m, SetPte(AddTable(m, d, q, t), d, q, e), f)
  {
    var m1 := AddTable(m, d, q, t);
    AddTableLoads(m, d, q, t);
    EntryParts(t);
    TableWriteMisses(m1, d, q, e, f);
    forall a: nat | f * DIRECTORY <= a < (f + 1) * DIRECTORY ensures Load(SetPte(m1, d, q, e), a) == Load(m, a) {
      assert Load(SetPte(m1, d, q, e), a) == Load(m1, a);
      assert a != PdeWord(d, q);
    }
  }

  // ----- palloc

  lemma MapOneData(L: Layout, vm: Vm, o: Owners, kernel: bool, q: nat, x: Place)
    requires CoreOk(L, vm, o) && (kernel || vm.current.Some?) && RunFits(kernel, q, 1)
    requires Unmapped(vm.phys, vm.dirs, kernel, Who(vm), q, 1) && DataPage(vm, x)
    ensures MapOne(L, vm, kernel, q).Go? ==> Preserved(vm, MapOne(L, vm, kernel, q).vm, x)
  {
    hide MapOne, TablesOk, PoolsOk;
    DataFrame(L, vm, o, x);
    var f := Backing(vm.phys, vm.dirs, x).value;
    var y := if kernel then Kernel(q) else User(Who(vm), q);
    var o' := MapOneOk(L, vm, o, kernel, q);
    if MapOne(L, vm, kernel, q).Go? {
      assert Backing(vm.phys, vm.dirs, y) == None;
      if kernel {
        MapOneKernel(L, vm, o, q);
        KernelWriteMisses(vm.phys, q, Entry(GetFrame(L, vm.pools, true).value.0, C_FLAGS), f);
      } else {
        MapOneUserData(L, vm, o, q, f);
      }
    }
  }

  lemma MapOneUserData(L: Layout, vm: Vm, o: Owners, q: nat, f: nat)
    requires CoreOk(L, vm, o) && vm.current.Some? && UserPage(q) && FrameAt(vm.phys, vm.cr3, q) == None
    requires f in o && !o[f].Table? && f != vm.cr3 && MapOne(L, vm, false, q).Go?
    ensures SameFrame(vm.phys, MapOne(L, vm, false, q).vm.phys, f)
  {
    hide MapOne, TablesOk, PoolsOk;
    var p := vm.current.value;
    if HasTable(vm.phys, vm.cr3, q) {
      MapOneHere(L, vm, o, q);
      TableIsOwned(L, vm.phys, vm.dirs, o, p, q);
      TableWriteMisses(vm.phys, vm.cr3, q, Entry(GetFrame(L, vm.pools, false).value.0, C_FLAGS), f);
    } else {
      MapOneNewTable(L, vm, o, q);
      var (g, pools) := GetFrame(L, vm.pools, false).value;
      var t := GetFrame(L, pools, true).value.0;
      DirIsOwned(L, vm.phys, vm.dirs, o, p);
      NewTableMisses(vm.phys, vm.cr3, q, t, Entry(g, C_FLAGS), f);
    }
  }

  lemma {:induction false} MapRunData(L: Layout, vm: Vm, o: Owners, kernel: bool, q: nat, n: nat, x: Place)
    requires CoreOk(L, vm, o) && (kernel || vm.current.Some?) && RunFits(kernel, q, n)
    requires Unmapped(vm.phys, vm.dirs, kernel, Who(vm), q, n) && DataPage(vm, x)
    ensures MapRun(L, vm, kernel, q, n).Go? ==> Preserved(vm, MapRun(L, vm, kernel, q, n).vm, x)
    decreases n
  {
    hide CoreOk, Maps, Unmapped, MapOne;
    if n > 0 {
      UnmappedFirst(vm.phys, vm.dirs, kernel, Who(vm), q, n);
      var o1 := MapOneOk(L, vm, o, kernel, q);
      MapOneData(L, vm, o, kernel, q, x);
      if MapOne(L, vm, kernel, q).Go? {
        var vm1 := MapOne(L, vm, kernel, q).vm;
        UnmappedStep(vm.phys, vm1.phys, vm.dirs, kernel, Who(vm), q, n);
        MapRunData(L, vm1, o1, kernel, q + 1, n - 1, x);
        if MapRun(L, vm1, kernel, q + 1, n - 1).Go? { PreservedStep(vm, vm1, MapRun(L, vm1, kernel, q + 1, n - 1).vm, x); }
      }
    }
  }

  lemma PallocData(L: Layout, vm: Vm, o: Owners, kernel: bool, n: nat, x: Place)
    requires VmOk(L, vm, o) && MayAsk(vm, kernel) && Palloc(L, vm, kernel, n).Got? && DataPage(vm, x)
    ensures Preserved(vm, Palloc(L, vm, kernel, n).vm, x)
  {
    hide CoreOk, BitsOk, Unmapped, MapRun, MapsRun, WithBits, DataPage, Preserved, Scan;
    var q := Palloc(L, vm, kernel, n).page;
    var o' := PallocOk(L, vm, o, kernel, n);
    var w := WithBits(vm, kernel, Interval(q - Base(kernel), n), {});
    BitsAside(vm, kernel, Interval(q - Base(kernel), n), x);
    CoreOkBits(L, vm, w, o);
    if n > 0 {
      MapRunData(L, w, o, kernel, q, n, x);
      PreservedStep(vm, w, Palloc(L, vm, kernel, n).vm, x);
    } else {
      NothingToMap(L, w, kernel, q);
    }
  }

  lemma BitsAside(vm: Vm, kernel: bool, add: set<nat>, x: Place)
    requires MayAsk(vm, kernel) && DataPage(vm, x)
    ensures var w := WithBits(vm, kernel, add, {});
            && w == vm.(kbits := w.kbits, ubits := w.ubits) && |w.ubits| == |vm.ubits|
            && DataPage(w, x) && Preserved(vm, w, x)
  {
  }

  lemma NothingToMap(L: Layout, vm: Vm, kernel: bool, q: nat)
    ensures MapRun(L, vm, kernel, q, 0) == Go(vm)
  {
  }

  // ----- pfree

  lemma FreeOneData(L: Layout, vm: Vm, o: Owners, kernel: bool, q: nat, x: Place)
    requires TreeOk(L, vm, o) && (kernel || vm.current.Some?) && Removable(vm.phys, vm.dirs, kernel, Who(vm), q, 1)
    requires DataPage(vm, x) && !InRun(kernel, Who(vm), q, 1, x)
    ensures FreeOne(L, vm, !kernel, q).Go? && Preserved(vm, FreeOne(L, vm, !kernel, q).vm, x)
  {
    hide FreeOne, TablesOk;
    DataFrame(L, vm, o, x);
    var f := Backing(vm.phys, vm.dirs, x).value;
    var g := FreeOneTree(L, vm, o, kernel, q);
    if kernel {
      FreeOneKernel(L, vm, o, q);
      KernelWriteMisses(vm.phys, q, 0, f);
    } else {
      FreeOneUser(L, vm, o, q);
      TableIsOwned(L, vm.phys, vm.dirs, o, Who(vm), q);
      TableWriteMisses(vm.phys, vm.cr3, q, 0, f);
    }
  }

  lemma {:induction false} FreeRunData(L: Layout, vm: Vm, o: Owners, kernel: bool, q: nat, n: nat, x: Place)
    requires TreeOk(L, vm, o) && (kernel || vm.current.Some?) && Removable(vm.phys, vm.dirs, kernel, Who(vm), q, n)
    requires DataPage(vm, x) && !InRun(kernel, Who(vm), q, n, x)
    ensures FreeRun(L, vm, !kernel, q, n).Go? && Preserved(vm, FreeRun(L, vm, !kernel, q, n).vm, x)
    decreases n
  {
    hide TreeOk, Unmaps, Removable, FreeOne;
    if n > 0 {
      RemovableStep(vm.phys, vm.phys, vm.dirs, kernel, Who(vm), q, n);
      var f := FreeOneTree(L, vm, o, kernel, q);
      FreeOneData(L, vm, o, kernel, q, x);
      var vm1 := FreeOne(L, vm, !kernel, q).vm;
      RemovableStep(vm.phys, vm1.phys, vm.dirs, kernel, Who(vm), q, n);
      FreeRunData(L, vm1, o - {f}, kernel, q + 1, n - 1, x);
      PreservedStep(vm, vm1, FreeRun(L, vm1, !kernel, q + 1, n - 1).vm, x);
    }
  }

  // Freed frames need not be returnable for this.
  lemma PfreeData(L: Layout, vm: Vm, o: Owners, kernel: bool, q: nat, n: nat, x: Place)
    requires VmOk(L, vm, o) && MayAsk(vm, kernel) && 1 <= n && Base(kernel) <= q
    requires Removable(vm.phys, vm.dirs, kernel, Who(vm), q, n)
    requires DataPage(vm, x) && !InRun(kernel, Who(vm), q, n, x)
    ensures Pfree(L, vm, kernel, q, n).Go? && Preserved(vm, Pfree(L, vm, kernel, q, n).vm, x)
  {
    hide TreeOk, BitsOk, Removable, FreeRun, VirtualAddrToPhysicAddr;
    FirstPage(L, vm, o, kernel, q, n);
    FreeRunData(L, vm, o, kernel, q, n, x);
  }

  // ----- CreatPDE

  lemma CreatPDEData(L: Layout, vm: Vm, o: Owners, x: Place)
    requires VmOk(L, vm, o) && CreatPDE(L, vm).Got? && DataPage(vm, x)
    ensures Preserved(vm, CreatPDE(L, vm).vm, x)
  {
    hide CoreOk, BitsOk, MapsRun, Palloc, TablesOk, NewDirectory, VirtualAddrToPhysicAddr;
    var o1 := PallocOk(L, vm, o, true, 1);
    var q, v := Palloc(L, vm, true, 1).page, Palloc(L, vm, true, 1).vm;
    CoreHasTables(L, vm, o);
    CoreHasTables(L, v, o1);
    assert x != Kernel(q) by { assert InRun(true, Who(vm), q, 1, Kernel(q)); }
    hide Unmapped;
    FreshDirectory(L, vm, v, o1, q);
    PallocData(L, vm, o, true, 1, x);
    var d := KFrame(v.phys, q).value;
    if Backing(v.phys, v.dirs, x) == Some(d) { NoSharedFrame(L, v.phys, v.dirs, o1, x, Kernel(q)); }
    NewDirectoryMisses(v.phys, v.cr3, d, Backing(v.phys, v.dirs, x).value);
    DirectoryData(L, v, o1, q, x);
    PreservedStep(vm, v, CreatPDE(L, vm).vm, x);
  }

  lemma NewDirectoryMisses(m: Memory, src: nat, d: nat, f: nat)
    requires src != d && f != d && KernelPart(m, src)
    ensures SameFrame(m, NewDirectory(m, src, d), f)
  {
    NewDirectoryIs(m, src, d);
  }

  lemma DirectoryData(L: Layout, v: Vm, o: Owners, q: nat, x: Place)
    requires TablesOk(L, v.phys, v.dirs, o) && KernelPage(q) && KFrame(v.phys, q).Some? && x != Kernel(q)
    requires (forall p: nat | p < |v.dirs| :: v.dirs[p] != q) && KernelPart(v.phys, v.cr3) && v.cr3 != KFrame(v.phys, q).value
    requires DataPage(v, x) && SameFrame(v.phys, NewDirectory(v.phys, v.cr3, KFrame(v.phys, q).value), Backing(v.phys, v.dirs, x).value)
    ensures Preserved(v, v.(phys := NewDirectory(v.phys, v.cr3, KFrame(v.phys, q).value), dirs := v.dirs + [q], ubits := v.ubits + [{}]), x)
  {
    hide TablesOk, NewDirectory, FrameAt, KernelPart;
    NewDirectoryOk(L, v.phys, v.dirs, o, v.cr3, q);
  }

  // ----- every operation

  // Whatever anyone asks of the memory manager, a data page that is not itself released keeps its
  // frame and its contents.
  lemma OpKeepsData(L: Layout, vm: Vm, op: Op, x: Place)
    requires Sound(L, vm) && Legal(L, vm, op) && Perform(L, vm, op).Go? && DataPage(vm, x)
    requires op.Release? ==> !InRun(op.fromKernel, Who(vm), op.q, op.count, x)
    ensures Preserved(vm, Perform(L, vm, op).vm, x)
  {
    hide VmOk, Palloc, Pfree, CreatPDE, ActivePDE, Removable, RunReturnable;
    var o: Owners :| VmOk(L, vm, o);
    match op {
      case Allocate(k, n) => if Palloc(L, vm, k, n).Got? { PallocData(L, vm, o, k, n, x); }
      case Release(k, q, n) => PfreeData(L, vm, o, k, q, n, x);
      case NewProcess => if CreatPDE(L, vm).Got? { CreatPDEData(L, vm, o, x); }
      case SwitchTo(to) => ActivePDEOk(L, vm, o, to);
    }
  }

  // ----- stores through the page tables

  // Word i of data page x, as a program sees it.
  function Seen(vm: Vm, x: Place, i: nat): nat
    requires DataPage(vm, x)
  {
    Load(vm.phys, Backing(vm.phys, vm.dirs, x).value * DIRECTORY + i)
  }

  // The memory manager after a store to that word.
  function Store(vm: Vm, x: Place, i: nat, value: nat): Vm
    requires DataPage(vm, x)
  {
    vm.(phys := vm.phys[Backing(vm.phys, vm.dirs, x).value * DIRECTORY + i := value])
  }

  lemma TablesUntouched(L: Layout, m: Memory, m': Memory, dirs: seq<nat>, o: Owners)
    requires TablesOk(L, m, dirs, o) && SameTranslations(m, m', dirs) && DirsOk(m', dirs)
    ensures TablesOk(L, m', dirs, o)
  {
    forall f: nat | f in o ensures OwnerOk(L, m', dirs, f, o[f]) {
      assert OwnerOk(L, m, dirs, f, o[f]);
      SameOwner(L, m, m', dirs, f, o[f], 0);
    }
    hide OwnersOk, DirsOk;
    EntriesUntouched(m, m', dirs, o);
  }

  lemma EntriesUntouched(m: Memory, m': Memory, dirs: seq<nat>, o: Owners)
    requires EntriesOk(m, dirs, o) && SameTranslations(m, m', dirs)
    ensures EntriesOk(m', dirs, o)
  {
  }

  lemma StoreTables(L: Layout, vm: Vm, o: Owners, x: Place, i: nat, value: nat)
    requires TablesOk(L, vm.phys, vm.dirs, o) && DataPage(vm, x) && i < DIRECTORY
    ensures var m' := Store(vm, x, i, value).phys;
            TablesOk(L, m', vm.dirs, o) && SameTranslations(vm.phys, m', vm.dirs)
  {
    hide TablesOk, SameTranslations, DirsOk, SameFrame;
    var f := Backing(vm.phys, vm.dirs, x).value;
    var m' := Store(vm, x, i, value).phys;
    forall g: nat | g != f ensures SameFrame(vm.phys, m', g) { WriteElsewhere(vm.phys, f * DIRECTORY + i, value, g); }
    DataWrite(L, vm.phys, m', vm.dirs, o, x);
    TablesUntouched(L, vm.phys, m', vm.dirs, o);
  }

  // Bitmaps, pools and the loaded directory agree with any memory that translates alike.
  lemma SameManager(L: Layout, vm: Vm, m': Memory, o: Owners)
    requires VmOk(L, vm, o) && TablesOk(L, m', vm.dirs, o) && SameTranslations(vm.phys, m', vm.dirs)
    ensures VmOk(L, vm.(phys := m'), o)
  {
    hide TablesOk, Dir, KFrame, FrameAt, DirEntry;
  }

  lemma StoreBacking(vm: Vm, x: Place, i: nat, value: nat, y: Place)
    requires DataPage(vm, x) && DataPage(vm, y) && SameTranslations(vm.phys, Store(vm, x, i, value).phys, vm.dirs)
    ensures DataPage(Store(vm, x, i, value), y)
    ensures Backing(Store(vm, x, i, value).phys, vm.dirs, y) == Backing(vm.phys, vm.dirs, y)
  {
  }

  lemma StoreSeen(L: Layout, vm: Vm, o: Owners, x: Place, i: nat, value: nat, y: Place, j: nat)
    requires TablesOk(L, vm.phys, vm.dirs, o) && DataPage(vm, x) && DataPage(vm, y) && i < DIRECTORY && j < DIRECTORY
    requires DataPage(Store(vm, x, i, value), y)
    requires Backing(Store(vm, x, i, value).phys, vm.dirs, y) == Backing(vm.phys, vm.dirs, y)
    ensures Seen(Store(vm, x, i, value), y, j) == if y == x && j == i then value else Seen(vm, y, j)
  {
    hide TablesOk, FrameAt;
    if y != x && Backing(vm.phys, vm.dirs, y) == Backing(vm.phys, vm.dirs, x) { NoSharedFrame(L, vm.phys, vm.dirs, o, x, y); }
    hide DataPage, Backing;
    WordPlace(Backing(vm.phys, vm.dirs, x).value, i, Backing(vm.phys, vm.dirs, y).value, j);
  }

  // A frame and an index below 1024 name one word.
  lemma WordPlace(f: nat, i: nat, g: nat, j: nat)
    requires i < DIRECTORY && j < DIRECTORY
    ensures f * DIRECTORY + i == g * DIRECTORY + j <==> f == g && i == j
  {
  }

  // A store to a data page is a store to that one word of that one address space's memory: no
  // translation changes, and no other word of any page of anyone.
  lemma StoreThrough(L: Layout, vm: Vm, x: Place, i: nat, value: nat)
    requires Sound(L, vm) && DataPage(vm, x) && i < DIRECTORY
    ensures Sound(L, Store(vm, x, i, value))
    ensures forall y: Place | DataPage(vm, y) ::
              && DataPage(Store(vm, x, i, value), y)
              && Backing(Store(vm, x, i, value).phys, vm.dirs, y) == Backing(vm.phys, vm.dirs, y)
    ensures forall y: Place, j: nat | DataPage(vm, y) && j < DIRECTORY ::
              Seen(Store(vm, x, i, value), y, j) == if y == x && j == i then value else Seen(vm, y, j)
  {
    hide VmOk, TablesOk, Seen, SameTranslations, Backing;
    var o: Owners :| VmOk(L, vm, o);
    var vm' := Store(vm, x, i, value);
    VmHasTables(L, vm, o);
    StoreTables(L, vm, o, x, i, value);
    SameManager(L, vm, vm'.phys, o);
    forall y: Place | DataPage(vm, y)
      ensures DataPage(vm', y) && Backing(vm'.phys, vm.dirs, y) == Backing(vm.phys, vm.dirs, y)
    {
      StoreBacking(vm, x, i, value, y);
    }
    forall y: Place, j: nat | DataPage(vm, y) && j < DIRECTORY
      ensures Seen(vm', y, j) == if y == x && j == i then value else Seen(vm, y, j)
    {
      StoreSeen(L, vm, o, x, i, value, y, j);
    }
  }

  lemma VmHasTables(L: Layout, vm: Vm, o: Owners)
    requires VmOk(L, vm, o)
    ensures TablesOk(L, vm.phys, vm.dirs, o)
  {
  }
}
