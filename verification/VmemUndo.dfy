// pfree undoes palloc (source/kernel/memory.c:242-307): what is left behind is page tables only.
module VmemUndo {
  import opened Basics
  import opened BitSets
  import opened Frames
  import opened Paging
  import opened Spaces
  import opened Vmem

  // Entry i of the directory of process p.
  function ProcEntry(m: Memory, dirs: seq<nat>, p: nat, i: nat): nat
    requires p < |dirs|
  {
    DirEntry(m, Dir(m, dirs[p]), i)
  }

  // Page tables in use stay in use for the same entries; unless `more`, none is added.
  ghost predicate TablesKept(m: Memory, m': Memory, dirs: seq<nat>, more: bool)
  {
    forall p: nat, i: nat | p < |dirs| && UserDir(i) && (!more || Present(ProcEntry(m, dirs, p, i))) ::
      ProcEntry(m', dirs, p, i) == ProcEntry(m, dirs, p, i)
  }

  lemma TablesKeptStep(m: Memory, m1: Memory, m2: Memory, dirs: seq<nat>, more: bool)
    requires TablesKept(m, m1, dirs, more) && TablesKept(m1, m2, dirs, more)
    ensures TablesKept(m, m2, dirs, more)
  {
    forall p: nat, i: nat | p < |dirs| && UserDir(i) && (!more || Present(ProcEntry(m, dirs, p, i)))
      ensures ProcEntry(m2, dirs, p, i) == ProcEntry(m, dirs, p, i)
    {
      assert ProcEntry(m1, dirs, p, i) == ProcEntry(m, dirs, p, i);
    }
  }

  // ----- palloc

  lemma KernelWriteKeeps(L: Layout, m: Memory, dirs: seq<nat>, o: Owners, q: nat, e: nat)
    requires TablesOk(L, m, dirs, o) && KernelPage(q) && forall p: nat | p < |dirs| :: dirs[p] != q
    ensures TablesKept(m, m[KWord(q) := e], dirs, false)
  {
    KernelTableWrite(L, m, dirs, o, q, e);
  }

  lemma UserWriteKeeps(L: Layout, m: Memory, dirs: seq<nat>, o: Owners, p: nat, q: nat, e: nat)
    requires TablesOk(L, m, dirs, o) && p < |dirs| && UserPage(q) && HasTable(m, Dir(m, dirs[p]), q)
    ensures TablesKept(m, SetPte(m, Dir(m, dirs[p]), q, e), dirs, false)
  {
    UserTableWrite(L, m, dirs, o, p, q, e);
  }

  lemma NewTableKeeps(L: Layout, m: Memory, dirs: seq<nat>, o: Owners, p: nat, q: nat, t: nat, e: nat)
    requires TablesOk(L, m, dirs, o) && p < |dirs| && UserPage(q) && !HasTable(m, Dir(m, dirs[p]), q)
    requires t !in o && L.KernelFrame(t)
    ensures var d := Dir(m, dirs[p]); TablesKept(m, SetPte(AddTable(m, d, q, t), d, q, e), dirs, true)
  {
    hide TablesOk, SetPte, AddTable;
    var d := Dir(m, dirs[p]);
    var m1 := AddTable(m, d, q, t);
    AddTableOk(L, m, dirs, o, p, q, t);
    assert Dir(m1, dirs[p]) == d;
    UserWriteKeeps(L, m1, dirs, o[t := Table(p, q / 1024)], p, q, e);
    assert DirEntry(m, d, q / 1024) == Load(m, PdeWord(d, q));
    assert TablesKept(m, m1, dirs, true);
    TablesKeptStep(m, m1, SetPte(m1, d, q, e), dirs, true);
  }

  lemma MapOneTables(L: Layout, vm: Vm, o: Owners, kernel: bool, q: nat)
    requires CoreOk(L, vm, o) && (kernel || vm.current.Some?) && RunFits(kernel, q, 1)
    requires Unmapped(vm.phys, vm.dirs, kernel, Who(vm), q, 1)
    ensures MapOne(L, vm, kernel, q).Go? ==> TablesKept(vm.phys, MapOne(L, vm, kernel, q).vm.phys, vm.dirs, !kernel)
  {
    CoreHasTables(L, vm, o);
    if kernel {
      assert Backing(vm.phys, vm.dirs, Kernel(q)) == None;
      MapOneKernel(L, vm, o, q);
      if GetFrame(L, vm.pools, true).Some? {
        KernelWriteKeeps(L, vm.phys, vm.dirs, o, q, Entry(GetFrame(L, vm.pools, true).value.0, C_FLAGS));
      }
    } else if q == KERNEL_BASE {
      MapIntoKernel(L, vm, o);
    } else {
      assert Backing(vm.phys, vm.dirs, User(Who(vm), q)) == None;
      UserPageTables(L, vm, o, q);
    }
  }

  lemma UserPageTables(L: Layout, vm: Vm, o: Owners, q: nat)
    requires CoreOk(L, vm, o) && vm.current.Some? && UserPage(q) && FrameAt(vm.phys, vm.cr3, q) == None
    ensures MapOne(L, vm, false, q).Go? ==> TablesKept(vm.phys, MapOne(L, vm, false, q).vm.phys, vm.dirs, true)
  {
    hide MapOne, TablesOk;
    var p := vm.current.value;
    assert vm.cr3 == Dir(vm.phys, vm.dirs[p]);
    if HasTable(vm.phys, vm.cr3, q) {
      MapOneHere(L, vm, o, q);
      if GetFrame(L, vm.pools, false).Some? {
        UserWriteKeeps(L, vm.phys, vm.dirs, o, p, q, Entry(GetFrame(L, vm.pools, false).value.0, C_FLAGS));
      }
    } else {
      MapOneNewTable(L, vm, o, q);
      if MapOne(L, vm, false, q).Go? {
        var (f, pools) := GetFrame(L, vm.pools, false).value;
        NewTableKeeps(L, vm.phys, vm.dirs, o, p, q, GetFrame(L, pools, true).value.0, Entry(f, C_FLAGS));
      }
    }
  }

  lemma {:induction false} MapRunTables(L: Layout, vm: Vm, o: Owners, kernel: bool, q: nat, n: nat)
    requires CoreOk(L, vm, o) && (kernel || vm.current.Some?) && RunFits(kernel, q, n)
    requires Unmapped(vm.phys, vm.dirs, kernel, Who(vm), q, n)
    ensures MapRun(L, vm, kernel, q, n).Go? ==> TablesKept(vm.phys, MapRun(L, vm, kernel, q, n).vm.phys, vm.dirs, !kernel)
    decreases n
  {
    hide CoreOk, Maps, Unmapped, MapOne;
    if n > 0 {
      UnmappedFirst(vm.phys, vm.dirs, kernel, Who(vm), q, n);
      var o1 := MapOneOk(L, vm, o, kernel, q);
      MapOneTables(L, vm, o, kernel, q);
      if MapOne(L, vm, kernel, q).Go? {
        var vm1 := MapOne(L, vm, kernel, q).vm;
        UnmappedStep(vm.phys, vm1.phys, vm.dirs, kernel, Who(vm), q, n);
        MapRunTables(L, vm1, o1, kernel, q + 1, n - 1);
        if MapRun(L, vm1, kernel, q + 1, n - 1).Go? {
          TablesKeptStep(vm.phys, vm1.phys, MapRun(L, vm1, kernel, q + 1, n - 1).vm.phys, vm.dirs, !kernel);
        }
      }
    }
  }

  lemma PallocTables(L: Layout, vm: Vm, o: Owners, kernel: bool, n: nat)
    requires VmOk(L, vm, o) && MayAsk(vm, kernel) && 0 < n && Palloc(L, vm, kernel, n).Got?
    ensures TablesKept(vm.phys, Palloc(L, vm, kernel, n).vm.phys, vm.dirs, !kernel)
  {
    hide CoreOk, Unmapped, MapRun, MapsRun;
    var q := Palloc(L, vm, kernel, n).page;
    var o' := PallocOk(L, vm, o, kernel, n);
    var w := WithBits(vm, kernel, Interval(q - Base(kernel), n), {});
    CoreOkBits(L, vm, w, o);
    MapRunTables(L, w, o, kernel, q, n);
  }

  // ----- pfree

  lemma FreeOneTables(L: Layout, vm: Vm, o: Owners, kernel: bool, q: nat)
    requires TreeOk(L, vm, o) && (kernel || vm.current.Some?) && Removable(vm.phys, vm.dirs, kernel, Who(vm), q, 1)
    ensures FreeOne(L, vm, !kernel, q).Go? ==> TablesKept(vm.phys, FreeOne(L, vm, !kernel, q).vm.phys, vm.dirs, false)
  {
    hide FreeOne;
    if kernel {
      assert Managed(vm.dirs, Kernel(q)) && Backing(vm.phys, vm.dirs, Kernel(q)) == KFrame(vm.phys, q);
      FreeOneKernel(L, vm, o, q);
      KernelWriteKeeps(L, vm.phys, vm.dirs, o, q, 0);
    } else {
      assert Managed(vm.dirs, User(Who(vm), q)) && Backing(vm.phys, vm.dirs, User(Who(vm), q)).Some?;
      FreeOneUser(L, vm, o, q);
      UserWriteKeeps(L, vm.phys, vm.dirs, o, Who(vm), q, 0);
    }
  }

  lemma {:induction false} FreeRunTables(L: Layout, vm: Vm, o: Owners, kernel: bool, q: nat, n: nat)
    requires TreeOk(L, vm, o) && (kernel || vm.current.Some?) && Removable(vm.phys, vm.dirs, kernel, Who(vm), q, n)
    ensures FreeRun(L, vm, !kernel, q, n).Go? ==> TablesKept(vm.phys, FreeRun(L, vm, !kernel, q, n).vm.phys, vm.dirs, false)
    decreases n
  {
    hide TreeOk, Unmaps, Removable, FreeOne;
    if n > 0 {
      RemovableStep(vm.phys, vm.phys, vm.dirs, kernel, Who(vm), q, n);
      var f := FreeOneTree(L, vm, o, kernel, q);
      FreeOneTables(L, vm, o, kernel, q);
      var vm1 := FreeOne(L, vm, !kernel, q).vm;
      RemovableStep(vm.phys, vm1.phys, vm.dirs, kernel, Who(vm), q, n);
      FreeRunTables(L, vm1, o - {f}, kernel, q + 1, n - 1);
      if FreeRun(L, vm1, !kernel, q + 1, n - 1).Go? {
        TablesKeptStep(vm.phys, vm1.phys, FreeRun(L, vm1, !kernel, q + 1, n - 1).vm.phys, vm.dirs, false);
      }
    }
  }

  lemma PfreeTables(L: Layout, vm: Vm, o: Owners, kernel: bool, q: nat, n: nat)
    requires VmOk(L, vm, o) && MayAsk(vm, kernel) && 1 <= n && Base(kernel) <= q
    requires Removable(vm.phys, vm.dirs, kernel, Who(vm), q, n) && Pfree(L, vm, kernel, q, n).Go?
    ensures TablesKept(vm.phys, Pfree(L, vm, kernel, q, n).vm.phys, vm.dirs, false)
  {
    hide TreeOk, Removable, FreeRun, VirtualAddrToPhysicAddr, BitsOk;
    FirstPage(L, vm, o, kernel, q, n);
    FreeRunTables(L, vm, o, kernel, q, n);
  }

  // ----- the two together

  // vm' is vm except for page tables that processes keep.
  ghost predicate Restored(L: Layout, vm: Vm, vm': Vm, kernel: bool)
  {
    && vm' == vm.(phys := vm'.phys, pools := vm'.pools)
    && (forall x: Place | Managed(vm.dirs, x) :: Backing(vm'.phys, vm.dirs, x) == Backing(vm.phys, vm.dirs, x))
    && (forall f: nat :: vm'.pools.Marked(L, f) <==> vm.pools.Marked(L, f) || (!kernel && ServesAsTable(vm'.phys, vm.dirs, f)))
  }

  lemma BitsRestored(vm: Vm, vm1: Vm, vm2: Vm, kernel: bool, s: nat, n: nat)
    requires MayAsk(vm, kernel) && MayAsk(vm1, kernel)
    requires vm1 == WithBits(vm, kernel, Interval(s, n), {}).(phys := vm1.phys, pools := vm1.pools)
    requires vm2 == WithBits(vm1, kernel, {}, Interval(s, n)).(phys := vm2.phys, pools := vm2.pools)
    requires if kernel then vm.kbits !! Interval(s, n) else vm.ubits[vm.current.value] !! Interval(s, n)
    ensures vm2 == vm.(phys := vm2.phys, pools := vm2.pools)
  {
    if kernel {
      assert (((vm.kbits + Interval(s, n)) - {}) + {}) - Interval(s, n) == vm.kbits;
    } else {
      var u := vm.ubits[vm.current.value];
      assert (((u + Interval(s, n)) - {}) + {}) - Interval(s, n) == u;
      assert vm2.ubits == vm.ubits;
    }
  }

  // Frames in use before and after, when the same pages are mapped and tables are kept.
  lemma MarksRestored(L: Layout, vm: Vm, vm': Vm, kernel: bool, f: nat)
    requires Sound(L, vm) && Sound(L, vm') && vm'.dirs == vm.dirs && TablesKept(vm.phys, vm'.phys, vm.dirs, !kernel)
    requires forall x: Place | Managed(vm.dirs, x) :: Backing(vm'.phys, vm.dirs, x) == Backing(vm.phys, vm.dirs, x)
    ensures vm'.pools.Marked(L, f) <==> vm.pools.Marked(L, f) || (!kernel && ServesAsTable(vm'.phys, vm.dirs, f))
  {
    PoolBitsExact(L, vm, f);
    PoolBitsExact(L, vm', f);
    hide Sound;
    SameBacks(vm.phys, vm'.phys, vm.dirs, f);
    SameBacks(vm'.phys, vm.phys, vm.dirs, f);
    TablesServe(vm.phys, vm'.phys, vm.dirs, !kernel, f);
  }

  lemma SameBacks(m: Memory, m': Memory, dirs: seq<nat>, f: nat)
    requires forall x: Place | Managed(dirs, x) :: Backing(m', dirs, x) == Backing(m, dirs, x)
    ensures Backs(m, dirs, f) ==> Backs(m', dirs, f)
  {
    if Backs(m, dirs, f) {
      var x: Place :| IsBacked(m, dirs, f, x);
      assert IsBacked(m', dirs, f, x);
    }
  }

  lemma TablesServe(m: Memory, m': Memory, dirs: seq<nat>, more: bool, f: nat)
    requires TablesKept(m, m', dirs, more)
    ensures ServesAsTable(m, dirs, f) ==> ServesAsTable(m', dirs, f)
    ensures !more && ServesAsTable(m', dirs, f) ==> ServesAsTable(m, dirs, f)
  {
    if ServesAsTable(m, dirs, f) {
      var p: nat, i: nat :| IsTable(m, dirs, f, p, i);
      assert Present(ProcEntry(m, dirs, p, i));
      assert IsTable(m', dirs, f, p, i);
    }
    if !more && ServesAsTable(m', dirs, f) {
      var p: nat, i: nat :| IsTable(m', dirs, f, p, i);
      assert ProcEntry(m', dirs, p, i) == ProcEntry(m, dirs, p, i);
      assert IsTable(m, dirs, f, p, i);
    }
  }

  // Kernel frames always can, and all can when kernelPages is a multiple of 8.
  lemma AllReturnable(L: Layout, vm: Vm, kernel: bool, q: nat, n: nat)
    requires Sound(L, vm) && (kernel || L.kernelPages % 8 == 0)
    ensures RunReturnable(L, vm.phys, vm.dirs, kernel, Who(vm), q, n)
  {
    if kernel {
      var o: Owners :| VmOk(L, vm, o);
      forall y: Place | Managed(vm.dirs, y) && InRun(kernel, Who(vm), q, n, y) && Backing(vm.phys, vm.dirs, y).Some?
        ensures Returnable(L, Backing(vm.phys, vm.dirs, y).value)
      {
        assert OwnerOk(L, vm.phys, vm.dirs, KFrame(vm.phys, y.q).value, KPage(y.q));
      }
    }
  }

  lemma RunRestored(m: Memory, m1: Memory, m2: Memory, dirs: seq<nat>, kernel: bool, c: nat, q: nat, n: nat)
    requires Unmapped(m, dirs, kernel, c, q, n) && MapsRun(m, m1, dirs, kernel, c, q, n) && UnmapsRun(m1, m2, dirs, kernel, c, q, n)
    ensures forall x: Place | Managed(dirs, x) :: Backing(m2, dirs, x) == Backing(m, dirs, x)
  {
  }

  lemma RunWasClear(L: Layout, vm: Vm, o: Owners, kernel: bool, q: nat, n: nat)
    requires VmOk(L, vm, o) && MayAsk(vm, kernel) && Unmapped(vm.phys, vm.dirs, kernel, Who(vm), q, n)
    requires RunFits(kernel, q, n) && (!kernel ==> q + n <= KERNEL_BASE)
    ensures var s := q - Base(kernel);
            if kernel then vm.kbits !! Interval(s, n) else vm.ubits[vm.current.value] !! Interval(s, n)
  {
    var s := q - Base(kernel);
    forall i: nat | i in Interval(s, n) ensures i !in (if kernel then vm.kbits else vm.ubits[vm.current.value]) {
      var x := if kernel then Kernel(i + HEAP_BASE) else User(Who(vm), i + USER_BASE);
      assert Managed(vm.dirs, x) && InRun(kernel, Who(vm), q, n, x);
      assert Backing(vm.phys, vm.dirs, x) == None;
    }
  }

  // Whatever palloc handed out, pfree takes back: bitmaps, page mappings and, page tables aside,
  // the frame pools are as before.
  lemma PfreeUndoesPalloc(L: Layout, vm: Vm, kernel: bool, n: nat)
    requires Sound(L, vm) && MayAsk(vm, kernel) && 0 < n && Palloc(L, vm, kernel, n).Got?
    requires var q, vm1 := Palloc(L, vm, kernel, n).page, Palloc(L, vm, kernel, n).vm;
             RunReturnable(L, vm1.phys, vm1.dirs, kernel, Who(vm1), q, n)
    ensures var q, vm1 := Palloc(L, vm, kernel, n).page, Palloc(L, vm, kernel, n).vm;
            && MayAsk(vm1, kernel) && Base(kernel) <= q && Pfree(L, vm1, kernel, q, n).Go?
            && Restored(L, vm, Pfree(L, vm1, kernel, q, n).vm, kernel) && Sound(L, Pfree(L, vm1, kernel, q, n).vm)
  {
    hide VmOk, Palloc, Pfree, Unmapped, MapsRun, UnmapsRun, Removable, RunReturnable, TablesKept;
    var o: Owners :| VmOk(L, vm, o);
    var q, vm1 := Palloc(L, vm, kernel, n).page, Palloc(L, vm, kernel, n).vm;
    var o1 := PallocOk(L, vm, o, kernel, n);
    NewRunRemovable(L, vm, vm1, o, kernel, q, n);
    assert Freeable(L, vm1.phys, vm1.dirs, kernel, Who(vm1), q, n);
    var o2 := PfreeOk(L, vm1, o1, kernel, q, n);
    var vm2 := Pfree(L, vm1, kernel, q, n).vm;
    assert VmOk(L, vm2, o2);
    RunRestored(vm.phys, vm1.phys, vm2.phys, vm.dirs, kernel, Who(vm), q, n);
    RunWasClear(L, vm, o, kernel, q, n);
    BitsRestored(vm, vm1, vm2, kernel, q - Base(kernel), n);
    PallocTables(L, vm, o, kernel, n);
    PfreeTables(L, vm1, o1, kernel, q, n);
    KeepsMore(vm1.phys, vm2.phys, vm.dirs, !kernel);
    TablesKeptStep(vm.phys, vm1.phys, vm2.phys, vm.dirs, !kernel);
    forall f: nat ensures vm2.pools.Marked(L, f) <==> vm.pools.Marked(L, f) || (!kernel && ServesAsTable(vm2.phys, vm.dirs, f)) {
      MarksRestored(L, vm, vm2, kernel, f);
    }
  }

  lemma KeepsMore(m: Memory, m': Memory, dirs: seq<nat>, more: bool)
    requires TablesKept(m, m', dirs, false)
    ensures TablesKept(m, m', dirs, more)
  {
  }

  // A page got on a frame that is not returnable is not undone: the frame's bit stays set.
  lemma NotUndone(L: Layout, vm: Vm, o: Owners, kernel: bool, n: nat)
    requires VmOk(L, vm, o) && MayAsk(vm, kernel) && 0 < n && Palloc(L, vm, kernel, n).Got?
    requires var q, vm1 := Palloc(L, vm, kernel, n).page, Palloc(L, vm, kernel, n).vm;
             !RunReturnable(L, vm1.phys, vm1.dirs, kernel, Who(vm1), q, n)
    ensures var q, vm1 := Palloc(L, vm, kernel, n).page, Palloc(L, vm, kernel, n).vm;
            && MayAsk(vm1, kernel) && Base(kernel) <= q && Pfree(L, vm1, kernel, q, n).Go?
            && !Restored(L, vm, Pfree(L, vm1, kernel, q, n).vm, kernel)
  {
    hide VmOk, Palloc, Pfree, Unmapped, MapsRun, UnmapsRun, Removable, BitsOk;
    var q, vm1 := Palloc(L, vm, kernel, n).page, Palloc(L, vm, kernel, n).vm;
    var o1 := PallocOk(L, vm, o, kernel, n);
    NewRunRemovable(L, vm, vm1, o, kernel, q, n);
    var y: Place :| Managed(vm1.dirs, y) && InRun(kernel, Who(vm1), q, n, y) && Backing(vm1.phys, vm1.dirs, y).Some?
                    && !Returnable(L, Backing(vm1.phys, vm1.dirs, y).value);
    FirstUserFrameMarked(L, vm1, o1, y);
    VmHasTree(L, vm1, o1);
    var o2 := PfreeTree(L, vm1, o1, kernel, q, n);
    var vm2 := Pfree(L, vm1, kernel, q, n).vm;
    var f := L.UserFirst();
    assert vm2.pools.Marked(L, f);
    WasUnmarked(L, vm, vm1, o, o1, kernel, q, n, y);
    NoUserTable(L, vm2, o2, f);
  }

  lemma NewRunRemovable(L: Layout, vm: Vm, vm1: Vm, o: Owners, kernel: bool, q: nat, n: nat)
    requires VmOk(L, vm, o) && MayAsk(vm, kernel) && vm1.dirs == vm.dirs && vm1.current == vm.current
    requires Unmapped(vm.phys, vm.dirs, kernel, Who(vm), q, n) && MapsRun(vm.phys, vm1.phys, vm.dirs, kernel, Who(vm), q, n)
    requires RunFits(kernel, q, n) && (!kernel ==> q + n <= KERNEL_BASE)
    ensures Removable(vm1.phys, vm1.dirs, kernel, Who(vm1), q, n)
  {
    forall y: Place | Managed(vm.dirs, y) && InRun(kernel, Who(vm), q, n, y)
      ensures Backing(vm1.phys, vm.dirs, y).Some? && (y.Kernel? ==> y.q !in vm.dirs)
    {
      assert Backing(vm.phys, vm.dirs, y) == None;
    }
  }

  // The frame of a page just mapped was in nobody's use before.
  lemma WasUnmarked(L: Layout, vm: Vm, vm1: Vm, o: Owners, o1: Owners, kernel: bool, q: nat, n: nat, y: Place)
    requires VmOk(L, vm, o) && VmOk(L, vm1, o1) && vm1.dirs == vm.dirs
    requires Unmapped(vm.phys, vm.dirs, kernel, Who(vm), q, n) && MapsRun(vm.phys, vm1.phys, vm.dirs, kernel, Who(vm), q, n)
    requires Managed(vm.dirs, y) && InRun(kernel, Who(vm), q, n, y) && Backing(vm1.phys, vm.dirs, y) == Some(L.UserFirst())
    requires L.UserFrame(L.UserFirst())
    ensures !vm.pools.Marked(L, L.UserFirst())
  {
    var f := L.UserFirst();
    CoreHasTables(L, vm, o);
    CoreHasTables(L, vm1, o1);
    forall x: Place | Managed(vm.dirs, x) ensures Backing(vm.phys, vm.dirs, x) != Some(f) {
      if Backing(vm.phys, vm.dirs, x) == Some(f) {
        assert Backing(vm1.phys, vm.dirs, x) == Some(f);
        NoSharedFrame(L, vm1.phys, vm1.dirs, o1, x, y);
      }
    }
    NothingOwned(L, vm, o, f);
  }

  // Page tables are frames of the kernel pool.
  lemma NoUserTable(L: Layout, vm: Vm, o: Owners, f: nat)
    requires TreeOk(L, vm, o) && L.UserFrame(f)
    ensures !ServesAsTable(vm.phys, vm.dirs, f)
  {
    forall p: nat, i: nat ensures !IsTable(vm.phys, vm.dirs, f, p, i) {
      assert IsTable(vm.phys, vm.dirs, f, p, i) ==> Owns(o, f, Table(p, i));
      assert f in o ==> OwnerOk(L, vm.phys, vm.dirs, f, o[f]);
    }
  }

  // ----- which frames palloc hands out

  // The page mapped gets the frame GetOnePhysicPage gives.
  lemma MapOneFrame(L: Layout, vm: Vm, o: Owners, q: nat)
    requires CoreOk(L, vm, o) && vm.current.Some? && UserPage(q) && FrameAt(vm.phys, vm.cr3, q) == None
    requires MapOne(L, vm, false, q).Go?
    ensures GetFrame(L, vm.pools, false).Some?
    ensures FrameAt(MapOne(L, vm, false, q).vm.phys, vm.cr3, q) == Some(GetFrame(L, vm.pools, false).value.0)
  {
    hide MapOne, TablesOk, PoolsOk;
    var p := vm.current.value;
    if HasTable(vm.phys, vm.cr3, q) {
      MapOneHere(L, vm, o, q);
      var f := GetFrame(L, vm.pools, false).value.0;
      EntryParts(f);
      UserTableWrite(L, vm.phys, vm.dirs, o, p, q, Entry(f, C_FLAGS));
    } else {
      MapOneNewTable(L, vm, o, q);
      var (f, pools) := GetFrame(L, vm.pools, false).value;
      var t := GetFrame(L, pools, true).value.0;
      EntryParts(f);
      AddTableOk(L, vm.phys, vm.dirs, o, p, q, t);
      var m1 := AddTable(vm.phys, vm.cr3, q, t);
      assert Dir(m1, vm.dirs[p]) == vm.cr3;
      UserTableWrite(L, m1, vm.dirs, o[t := Table(p, q / 1024)], p, q, Entry(f, C_FLAGS));
    }
  }

  // First fit gives the first user frame while its bit is clear.
  lemma FirstUserFrame(L: Layout, p: Pools)
    requires GetFrame(L, p, false).Some? && 0 !in p.user
    ensures GetFrame(L, p, false).value.0 == L.UserFirst()
  {
    ScanOneExact(p.user, 8 * L.UserBytes());
  }

  // So it is the frame of the first page of a process's run.
  lemma FirstPageFrame(L: Layout, vm: Vm, o: Owners, q: nat, n: nat)
    requires CoreOk(L, vm, o) && vm.current.Some? && 0 < n && RunFits(false, q, n) && q + n <= KERNEL_BASE && 0 !in vm.pools.user
    requires Unmapped(vm.phys, vm.dirs, false, Who(vm), q, n) && MapRun(L, vm, false, q, n).Go?
    ensures Backing(MapRun(L, vm, false, q, n).vm.phys, vm.dirs, User(Who(vm), q)) == Some(L.UserFirst())
  {
    hide CoreOk, Maps, MapsRun, Unmapped, MapOne, FrameAt;
    FirstMapped(L, vm, o, q, n);
    UnmappedFirst(vm.phys, vm.dirs, false, Who(vm), q, n);
    var o1 := MapOneOk(L, vm, o, false, q);
    var vm1 := MapOne(L, vm, false, q).vm;
    UnmappedStep(vm.phys, vm1.phys, vm.dirs, false, Who(vm), q, n);
    var o2 := MapRunOk(L, vm1, o1, false, q + 1, n - 1);
    LaterPages(vm.phys, vm1.phys, MapRun(L, vm1, false, q + 1, n - 1).vm.phys, vm.dirs, Who(vm), q, n);
  }

  lemma FirstMapped(L: Layout, vm: Vm, o: Owners, q: nat, n: nat)
    requires CoreOk(L, vm, o) && vm.current.Some? && 0 < n && RunFits(false, q, n) && q + n <= KERNEL_BASE && 0 !in vm.pools.user
    requires Unmapped(vm.phys, vm.dirs, false, Who(vm), q, n) && MapOne(L, vm, false, q).Go?
    ensures Managed(vm.dirs, User(Who(vm), q))
    ensures Backing(MapOne(L, vm, false, q).vm.phys, vm.dirs, User(Who(vm), q)) == Some(L.UserFirst())
  {
    hide MapOne, TablesOk, PoolsOk, FrameAt, GetFrame;
    var x := User(Who(vm), q);
    assert Managed(vm.dirs, x) && InRun(false, Who(vm), q, n, x) && Backing(vm.phys, vm.dirs, x) == None;
    MapOneFrame(L, vm, o, q);
    FirstUserFrame(L, vm.pools);
    UnmappedFirst(vm.phys, vm.dirs, false, Who(vm), q, n);
    var o1 := MapOneOk(L, vm, o, false, q);
  }

  lemma LaterPages(m: Memory, m1: Memory, m2: Memory, dirs: seq<nat>, c: nat, q: nat, n: nat)
    requires 0 < n && Maps(m, m1, dirs, User(c, q)) && MapsRun(m1, m2, dirs, false, c, q + 1, n - 1)
    ensures Dir(m1, dirs[c]) == Dir(m, dirs[c]) && Backing(m2, dirs, User(c, q)) == Backing(m1, dirs, User(c, q))
  {
  }

  // Known before the call: whether a run will hold a frame that is not returnable.
  predicate Undoable(L: Layout, vm: Vm, kernel: bool) { kernel || L.kernelPages % 8 == 0 || 0 in vm.pools.user }

  lemma ReturnableIff(L: Layout, vm: Vm, o: Owners, kernel: bool, n: nat)
    requires VmOk(L, vm, o) && MayAsk(vm, kernel) && 0 < n && Palloc(L, vm, kernel, n).Got?
    ensures var q, vm1 := Palloc(L, vm, kernel, n).page, Palloc(L, vm, kernel, n).vm;
            RunReturnable(L, vm1.phys, vm1.dirs, kernel, Who(vm1), q, n) <==> Undoable(L, vm, kernel)
  {
    hide VmOk, Palloc, Unmapped, MapsRun, RunReturnable;
    var q, vm1 := Palloc(L, vm, kernel, n).page, Palloc(L, vm, kernel, n).vm;
    var o1 := PallocOk(L, vm, o, kernel, n);
    assert VmOk(L, vm1, o1);
    if kernel || L.kernelPages % 8 == 0 {
      AllReturnable(L, vm1, kernel, q, n);
    } else if 0 in vm.pools.user {
      UsedBefore(L, vm, vm1, o, o1, q, n);
    } else {
      FirstFrameTaken(L, vm, o, n);
    }
  }

  // The first user frame in use already: the new pages have others.
  lemma UsedBefore(L: Layout, vm: Vm, vm1: Vm, o: Owners, o1: Owners, q: nat, n: nat)
    requires VmOk(L, vm, o) && VmOk(L, vm1, o1) && vm1.dirs == vm.dirs && vm1.current == vm.current && 0 in vm.pools.user
    requires Unmapped(vm.phys, vm.dirs, false, Who(vm), q, n) && MapsRun(vm.phys, vm1.phys, vm.dirs, false, Who(vm), q, n)
    ensures RunReturnable(L, vm1.phys, vm1.dirs, false, Who(vm1), q, n)
  {
    hide Unmapped, MapsRun;
    UserBitMarks(L, vm, o);
    hide VmOk;
    forall y: Place | Managed(vm1.dirs, y) && InRun(false, Who(vm1), q, n, y) && Backing(vm1.phys, vm1.dirs, y).Some?
      ensures Returnable(L, Backing(vm1.phys, vm1.dirs, y).value)
    {
      if Backing(vm1.phys, vm1.dirs, y) == Some(L.UserFirst()) { WasUnmarked(L, vm, vm1, o, o1, false, q, n, y); }
    }
  }

  lemma UserBitMarks(L: Layout, vm: Vm, o: Owners)
    requires VmOk(L, vm, o) && 0 in vm.pools.user
    ensures L.UserFrame(L.UserFirst()) && vm.pools.Marked(L, L.UserFirst())
  {
  }

  lemma FirstFrameTaken(L: Layout, vm: Vm, o: Owners, n: nat)
    requires VmOk(L, vm, o) && MayAsk(vm, false) && 0 < n && Palloc(L, vm, false, n).Got?
    requires L.kernelPages % 8 != 0 && 0 !in vm.pools.user
    ensures var q, vm1 := Palloc(L, vm, false, n).page, Palloc(L, vm, false, n).vm;
            !RunReturnable(L, vm1.phys, vm1.dirs, false, Who(vm1), q, n)
  {
    hide CoreOk, BitsOk, Unmapped, MapsRun, MapRun;
    var q, vm1 := Palloc(L, vm, false, n).page, Palloc(L, vm, false, n).vm;
    var o1 := PallocOk(L, vm, o, false, n);
    var w := WithBits(vm, false, Interval(q - USER_BASE, n), {});
    CoreOkBits(L, vm, w, o);
    FirstPageFrame(L, w, o, q, n);
    CurrentProcess(L, vm, o);
    var x := User(Who(vm), q);
    assert Managed(vm1.dirs, x) && InRun(false, Who(vm1), q, n, x);
    assert Backing(vm1.phys, vm1.dirs, x) == Some(L.UserFirst());
  }

  // pfree undoes palloc exactly when the call is one of the kernel, or the kernel pages are a multiple
  // of 8, or the first user frame was in use already.
  lemma UndoneIff(L: Layout, vm: Vm, kernel: bool, n: nat)
    requires Sound(L, vm) && MayAsk(vm, kernel) && 0 < n && Palloc(L, vm, kernel, n).Got?
    ensures var q, vm1 := Palloc(L, vm, kernel, n).page, Palloc(L, vm, kernel, n).vm;
            && MayAsk(vm1, kernel) && Base(kernel) <= q && Pfree(L, vm1, kernel, q, n).Go?
            && (Restored(L, vm, Pfree(L, vm1, kernel, q, n).vm, kernel) <==> Undoable(L, vm, kernel))
  {
    hide VmOk, Palloc, Pfree, Restored, RunReturnable, Undoable;
    var o: Owners :| VmOk(L, vm, o);
    ReturnableIff(L, vm, o, kernel, n);
    if Undoable(L, vm, kernel) {
      PfreeUndoesPalloc(L, vm, kernel, n);
    } else {
      NotUndone(L, vm, o, kernel, n);
    }
  }
}
