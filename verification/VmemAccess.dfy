// What user mode may do: every page the memory manager maps can be read and written by its process
// (source/kernel/memory.c:127-162 and 242-307, source/userprog/process.c:39-60, source/boot/loader.S:136-181).
module VmemAccess {
  import opened Basics
  import opened BitSets
  import opened Frames
  import opened Paging
  import opened Spaces
  import opened Vmem
  import opened VmemData

  // Bits 1 and 2 of an entry.
  predicate Writable(e: nat) { e / 2 % 2 == 1 }
  predicate ForUser(e: nat) { e / 4 % 2 == 1 }

  // Translation for user mode, by sections 4.3 and 4.6 of the Intel SDM, volume 3A: both entries must be
  // for the user, and for a write both must be writable.
  function UserWalk(m: Memory, dir: nat, v: nat, write: bool): Option<nat>
  {
    var pde := Load(m, dir * DIRECTORY + DirIndex(v));
    if !Present(pde) || !ForUser(pde) || (write && !Writable(pde)) then None
    else
      var pte := Load(m, FrameOf(pde) * DIRECTORY + TableIndex(v));
      if !Present(pte) || !ForUser(pte) || (write && !Writable(pte)) then None else Some(FrameOf(pte) * 4096 + v % 4096)
  }

  // An entry that refuses user mode nothing, if it is present.
  predicate Open(e: nat) { Present(e) ==> ForUser(e) && Writable(e) }

  // The entries of a table that PageMapping, boot and CreatPDE write.
  lemma OpenEntries(f: nat)
    ensures Open(Entry(f, C_FLAGS)) && Open(Entry(f, BOOT_FLAGS)) && Open(0)
  {
    EntryBits(f, C_FLAGS);
    EntryBits(f, BOOT_FLAGS);
  }

  // The flags are the entry's low bits.
  lemma EntryBits(f: nat, flags: nat)
    requires flags < 4096
    ensures var e := Entry(f, flags);
            && (Present(e) <==> Present(flags)) && (Writable(e) <==> Writable(flags)) && (ForUser(e) <==> ForUser(flags))
            && e % 4096 == flags && FrameOf(e) == f
  {
    LowBit(2048 * f, flags, 1);
    LowBit(1024 * f, flags, 2);
    LowBit(512 * f, flags, 4);
  }

  lemma LowBit(k: nat, flags: nat, d: nat)
    requires d in {1, 2, 4}
    ensures (2 * d * k + flags) / d % 2 == flags / d % 2
  {
    if d == 1 { Even(k, flags); } else if d == 2 { Even(k, flags / 2); } else { Even(k, flags / 4); }
  }

  lemma Even(k: nat, h: nat)
    ensures (2 * k + h) % 2 == h % 2
  {
  }

  // All entries of the kernel's tables, of the directories below the kernel's part, and of the tables
  // of the processes.
  ghost predicate AllOpen(m: Memory, dirs: seq<nat>)
  {
    && (forall q: nat | KERNEL_BASE <= q < KERNEL_TOP :: Open(Load(m, KWord(q))))
    && (forall p: nat, i: nat | p < |dirs| && UserDir(i) :: Open(DirEntry(m, Dir(m, dirs[p]), i)))
    && (forall p: nat, u: nat | p < |dirs| && UserPage(u) && HasTable(m, Dir(m, dirs[p]), u) ::
          Open(Load(m, PteWord(m, Dir(m, dirs[p]), u))))
  }

  // ----- what it means

  lemma WalkOpen(m: Memory, d: nat, q: nat, offset: nat, write: bool)
    requires offset < 4096 && Open(Load(m, PdeWord(d, q))) && (HasTable(m, d, q) ==> Open(Load(m, PteWord(m, d, q))))
    ensures UserWalk(m, d, q * 4096 + offset, write) == Walk(m, d, q * 4096 + offset)
  {
    PageIndices(q, offset);
    hide DirIndex, TableIndex;
  }

  // In every process, user mode translates every address below the window as the hardware walk does,
  // for reading and for writing.
  lemma UserSees(m: Memory, dirs: seq<nat>, p: nat, v: nat, write: bool)
    requires DirsOk(m, dirs) && AllOpen(m, dirs) && p < |dirs| && v < KERNEL_TOP * 4096
    ensures UserWalk(m, Dir(m, dirs[p]), v, write) == Walk(m, Dir(m, dirs[p]), v)
  {
    var d, q := Dir(m, dirs[p]), v / 4096;
    assert v == q * 4096 + v % 4096 && KernelPart(m, d);
    if KERNEL_BASE <= q {
      KernelOpen(m, dirs, d, q);
    } else if q < 1024 {
      LowOpen(m, dirs, d, q);
    } else {
      assert UserDir(q / 1024) && DirEntry(m, d, q / 1024) == Load(m, PdeWord(d, q));
      assert UserPage(q) && (HasTable(m, Dir(m, dirs[p]), q) ==> Open(Load(m, PteWord(m, Dir(m, dirs[p]), q))));
    }
    WalkOpen(m, d, q, v % 4096, write);
  }

  lemma KernelOpen(m: Memory, dirs: seq<nat>, d: nat, q: nat)
    requires KernelPart(m, d) && AllOpen(m, dirs) && KERNEL_BASE <= q < KERNEL_TOP
    ensures Open(Load(m, PdeWord(d, q))) && Open(Load(m, PteWord(m, d, q)))
  {
    KernelAgrees(m, d, q);
    assert DirEntry(m, d, q / 1024) == Load(m, PdeWord(d, q));
    OpenEntries(FIRST_TABLE + (q / 1024 - USER_DIRS));
  }

  // Entry 0 leads to the first kernel table.
  lemma LowOpen(m: Memory, dirs: seq<nat>, d: nat, q: nat)
    requires KernelPart(m, d) && AllOpen(m, dirs) && q < 1024
    ensures Open(Load(m, PdeWord(d, q))) && Open(Load(m, PteWord(m, d, q)))
  {
    assert DirEntry(m, d, 0) == Load(m, PdeWord(d, q));
    OpenEntries(FIRST_TABLE);
    EntryParts(FIRST_TABLE);
    assert PteWord(m, d, q) == KWord(KERNEL_BASE + q);
  }

  // ----- writes that leave all entries open

  // Every word that changed is an open entry.
  ghost predicate ChangedOpen(m: Memory, m': Memory)
  {
    forall a: nat :: Load(m', a) == Load(m, a) || Open(Load(m', a))
  }

  lemma OpenAfter(m: Memory, m': Memory, dirs: seq<nat>)
    requires AllOpen(m, dirs) && ChangedOpen(m, m')
    requires forall p: nat | p < |dirs| :: Dir(m', dirs[p]) == Dir(m, dirs[p])
    requires forall p: nat, i: nat | p < |dirs| && UserDir(i) :: DirEntry(m', Dir(m, dirs[p]), i) == DirEntry(m, Dir(m, dirs[p]), i)
    ensures AllOpen(m', dirs)
  {
    hide Open, Dir;
    forall p: nat, u: nat | p < |dirs| && UserPage(u) && HasTable(m', Dir(m, dirs[p]), u)
      ensures Open(Load(m', PteWord(m', Dir(m, dirs[p]), u)))
    {
      var d := Dir(m, dirs[p]);
      assert UserDir(u / 1024);
      assert DirEntry(m', Dir(m, dirs[p]), u / 1024) == DirEntry(m, Dir(m, dirs[p]), u / 1024);
      assert Load(m', PdeWord(d, u)) == Load(m, PdeWord(d, u));
      assert HasTable(m, d, u) && PteWord(m', d, u) == PteWord(m, d, u);
    }
    assert forall p: nat, i: nat | p < |dirs| && UserDir(i) :: Open(DirEntry(m, Dir(m, dirs[p]), i));
  }

  lemma KernelEntryOpen(L: Layout, m: Memory, dirs: seq<nat>, o: Owners, q: nat, e: nat)
    requires TablesOk(L, m, dirs, o) && KernelPage(q) && (forall p: nat | p < |dirs| :: dirs[p] != q)
    requires AllOpen(m, dirs) && Open(e)
    ensures AllOpen(m[KWord(q) := e], dirs)
  {
    hide AllOpen, TablesOk, Open;
    KernelTableWrite(L, m, dirs, o, q, e);
    OpenAfter(m, m[KWord(q) := e], dirs);
  }

  lemma UserEntryOpen(L: Layout, m: Memory, dirs: seq<nat>, o: Owners, p: nat, q: nat, e: nat)
    requires TablesOk(L, m, dirs, o) && p < |dirs| && UserPage(q) && HasTable(m, Dir(m, dirs[p]), q)
    requires AllOpen(m, dirs) && Open(e)
    ensures AllOpen(SetPte(m, Dir(m, dirs[p]), q, e), dirs)
  {
    hide AllOpen, TablesOk, Open;
    UserTableWrite(L, m, dirs, o, p, q, e);
    OpenAfter(m, SetPte(m, Dir(m, dirs[p]), q, e), dirs);
  }

  lemma TableOpen(L: Layout, m: Memory, dirs: seq<nat>, o: Owners, p: nat, q: nat, t: nat)
    requires TablesOk(L, m, dirs, o) && p < |dirs| && UserPage(q) && !HasTable(m, Dir(m, dirs[p]), q)
    requires t !in o && L.KernelFrame(t) && AllOpen(m, dirs)
    ensures AllOpen(AddTable(m, Dir(m, dirs[p]), q, t), dirs)
  {
    hide TablesOk, KernelPart, Open;
    var d := Dir(m, dirs[p]);
    var m' := AddTable(m, d, q, t);
    AddTableOk(L, m, dirs, o, p, q, t);
    DirIsOwned(L, m, dirs, o, p);
    AddTableLoads(m, d, q, t);
    OpenEntries(t);
    EntryParts(t);
    NewTableChanges(m, d, q, t);
    forall r: nat, i: nat | r < |dirs| && UserDir(i) ensures Open(DirEntry(m', Dir(m, dirs[r]), i)) {
      if r == p && i == q / 1024 {
        assert DirEntry(m', d, i) == Load(m', PdeWord(d, q));
      } else {
        assert Open(DirEntry(m, Dir(m, dirs[r]), i));
      }
    }
    forall r: nat, u: nat | r < |dirs| && UserPage(u) && HasTable(m', Dir(m, dirs[r]), u)
      ensures Open(Load(m', PteWord(m', Dir(m, dirs[r]), u)))
    {
      if r == p && u / 1024 == q / 1024 {
        NewTableEmpty(m, d, q, t, u);
      } else {
        assert UserDir(u / 1024) && DirEntry(m', Dir(m, dirs[r]), u / 1024) == DirEntry(m, Dir(m, dirs[r]), u / 1024);
        OldTableOpen(m, m', dirs, r, u);
      }
    }
  }

  lemma NewTableChanges(m: Memory, d: nat, q: nat, t: nat)
    ensures ChangedOpen(m, AddTable(m, d, q, t))
  {
    OpenEntries(t);
  }

  lemma NewTableEmpty(m: Memory, d: nat, q: nat, t: nat, u: nat)
    requires t != d && q / 1024 < WINDOW && u / 1024 == q / 1024
    ensures Open(Load(AddTable(m, d, q, t), PteWord(AddTable(m, d, q, t), d, u)))
  {
    var m' := AddTable(m, d, q, t);
    AddTableLoads(m, d, q, t);
    EntryParts(t);
    assert PdeWord(d, u) == PdeWord(d, q) && PteWord(m', d, u) == t * DIRECTORY + u % 1024;
    assert Load(m', PteWord(m', d, u)) == 0;
  }

  lemma OldTableOpen(m: Memory, m': Memory, dirs: seq<nat>, r: nat, u: nat)
    requires AllOpen(m, dirs) && ChangedOpen(m, m') && r < |dirs| && UserPage(u) && HasTable(m', Dir(m, dirs[r]), u)
    requires DirEntry(m', Dir(m, dirs[r]), u / 1024) == DirEntry(m, Dir(m, dirs[r]), u / 1024)
    ensures Open(Load(m', PteWord(m', Dir(m, dirs[r]), u)))
  {
    var d := Dir(m, dirs[r]);
    assert Load(m', PdeWord(d, u)) == Load(m, PdeWord(d, u));
    assert HasTable(m, d, u) && PteWord(m', d, u) == PteWord(m, d, u);
  }

  // ----- palloc

  lemma MapOneOpen(L: Layout, vm: Vm, o: Owners, kernel: bool, q: nat)
    requires CoreOk(L, vm, o) && (kernel || vm.current.Some?) && RunFits(kernel, q, 1)
    requires Unmapped(vm.phys, vm.dirs, kernel, Who(vm), q, 1) && AllOpen(vm.phys, vm.dirs)
    ensures MapOne(L, vm, kernel, q).Go? ==> AllOpen(MapOne(L, vm, kernel, q).vm.phys, vm.dirs)
  {
    hide MapOne, EntriesOk, OwnersOk, PoolsOk, AllOpen, KernelPart, LowOk, FrameAt;
    var y := if kernel then Kernel(q) else User(Who(vm), q);
    var o' := MapOneOk(L, vm, o, kernel, q);
    if MapOne(L, vm, kernel, q).Go? {
      assert Backing(vm.phys, vm.dirs, y) == None;
      if kernel {
        MapOneKernel(L, vm, o, q);
        var f := GetFrame(L, vm.pools, true).value.0;
        OpenEntries(f);
        KernelEntryOpen(L, vm.phys, vm.dirs, o, q, Entry(f, C_FLAGS));
      } else {
        MapOneUserOpen(L, vm, o, q);
      }
    }
  }

  lemma MapOneUserOpen(L: Layout, vm: Vm, o: Owners, q: nat)
    requires CoreOk(L, vm, o) && vm.current.Some? && UserPage(q) && FrameAt(vm.phys, vm.cr3, q) == None
    requires AllOpen(vm.phys, vm.dirs) && MapOne(L, vm, false, q).Go?
    ensures AllOpen(MapOne(L, vm, false, q).vm.phys, vm.dirs)
  {
    hide MapOne, TablesOk, PoolsOk, AllOpen, FrameAt;
    var p := vm.current.value;
    if HasTable(vm.phys, vm.cr3, q) {
      MapOneHere(L, vm, o, q);
      var f := GetFrame(L, vm.pools, false).value.0;
      OpenEntries(f);
      UserEntryOpen(L, vm.phys, vm.dirs, o, p, q, Entry(f, C_FLAGS));
    } else {
      MapOneNewTable(L, vm, o, q);
      var (f, pools) := GetFrame(L, vm.pools, false).value;
      var t := GetFrame(L, pools, true).value.0;
      var m1 := AddTable(vm.phys, vm.cr3, q, t);
      AddTableOk(L, vm.phys, vm.dirs, o, p, q, t);
      TableOpen(L, vm.phys, vm.dirs, o, p, q, t);
      assert Dir(m1, vm.dirs[p]) == vm.cr3;
      OpenEntries(f);
      UserEntryOpen(L, m1, vm.dirs, o[t := Table(p, q / 1024)], p, q, Entry(f, C_FLAGS));
    }
  }

  lemma {:induction false} MapRunOpen(L: Layout, vm: Vm, o: Owners, kernel: bool, q: nat, n: nat)
    requires CoreOk(L, vm, o) && (kernel || vm.current.Some?) && RunFits(kernel, q, n)
    requires Unmapped(vm.phys, vm.dirs, kernel, Who(vm), q, n) && AllOpen(vm.phys, vm.dirs)
    ensures MapRun(L, vm, kernel, q, n).Go? ==> AllOpen(MapRun(L, vm, kernel, q, n).vm.phys, vm.dirs)
    decreases n
  {
    hide CoreOk, Maps, Unmapped, MapOne, AllOpen;
    if n > 0 {
      UnmappedFirst(vm.phys, vm.dirs, kernel, Who(vm), q, n);
      var o1 := MapOneOk(L, vm, o, kernel, q);
      MapOneOpen(L, vm, o, kernel, q);
      if MapOne(L, vm, kernel, q).Go? {
        var vm1 := MapOne(L, vm, kernel, q).vm;
        UnmappedStep(vm.phys, vm1.phys, vm.dirs, kernel, Who(vm), q, n);
        MapRunOpen(L, vm1, o1, kernel, q + 1, n - 1);
      }
    }
  }

  lemma PallocOpen(L: Layout, vm: Vm, o: Owners, kernel: bool, n: nat)
    requires VmOk(L, vm, o) && MayAsk(vm, kernel) && Palloc(L, vm, kernel, n).Got? && AllOpen(vm.phys, vm.dirs)
    ensures AllOpen(Palloc(L, vm, kernel, n).vm.phys, vm.dirs)
  {
    hide CoreOk, BitsOk, Unmapped, MapRun, MapsRun, AllOpen, Scan;
    var q := Palloc(L, vm, kernel, n).page;
    var o' := PallocOk(L, vm, o, kernel, n);
    var w := WithBits(vm, kernel, Interval(q - Base(kernel), n), {});
    CoreOkBits(L, vm, w, o);
    if n > 0 { MapRunOpen(L, w, o, kernel, q, n); } else { NothingToMap(L, w, kernel, q); }
  }

  // ----- pfree

  lemma FreeOneOpen(L: Layout, vm: Vm, o: Owners, kernel: bool, q: nat)
    requires TreeOk(L, vm, o) && (kernel || vm.current.Some?) && Removable(vm.phys, vm.dirs, kernel, Who(vm), q, 1)
    requires AllOpen(vm.phys, vm.dirs)
    ensures FreeOne(L, vm, !kernel, q).Go? && AllOpen(FreeOne(L, vm, !kernel, q).vm.phys, vm.dirs)
  {
    hide FreeOne, TablesOk, AllOpen, FrameAt;
    var f := FreeOneTree(L, vm, o, kernel, q);
    OpenEntries(f);
    if kernel {
      FreeOneKernel(L, vm, o, q);
      assert Managed(vm.dirs, Kernel(q)) && InRun(true, Who(vm), q, 1, Kernel(q));
      KernelEntryOpen(L, vm.phys, vm.dirs, o, q, 0);
    } else {
      FreeOneUser(L, vm, o, q);
      FreedHasTable(vm, q);
      UserEntryOpen(L, vm.phys, vm.dirs, o, Who(vm), q, 0);
    }
  }

  lemma FreedHasTable(vm: Vm, q: nat)
    requires FrameAt(vm.phys, vm.cr3, q).Some?
    ensures HasTable(vm.phys, vm.cr3, q)
  {
  }

  lemma {:induction false} FreeRunOpen(L: Layout, vm: Vm, o: Owners, kernel: bool, q: nat, n: nat)
    requires TreeOk(L, vm, o) && (kernel || vm.current.Some?) && Removable(vm.phys, vm.dirs, kernel, Who(vm), q, n)
    requires AllOpen(vm.phys, vm.dirs)
    ensures FreeRun(L, vm, !kernel, q, n).Go? && AllOpen(FreeRun(L, vm, !kernel, q, n).vm.phys, vm.dirs)
    decreases n
  {
    hide TreeOk, Unmaps, Removable, FreeOne, AllOpen;
    if n > 0 {
      RemovableStep(vm.phys, vm.phys, vm.dirs, kernel, Who(vm), q, n);
      var f := FreeOneTree(L, vm, o, kernel, q);
      FreeOneOpen(L, vm, o, kernel, q);
      var vm1 := FreeOne(L, vm, !kernel, q).vm;
      RemovableStep(vm.phys, vm1.phys, vm.dirs, kernel, Who(vm), q, n);
      FreeRunOpen(L, vm1, o - {f}, kernel, q + 1, n - 1);
    }
  }

  lemma PfreeOpen(L: Layout, vm: Vm, o: Owners, kernel: bool, q: nat, n: nat)
    requires VmOk(L, vm, o) && MayAsk(vm, kernel) && 1 <= n && Base(kernel) <= q
    requires Removable(vm.phys, vm.dirs, kernel, Who(vm), q, n) && AllOpen(vm.phys, vm.dirs)
    ensures Pfree(L, vm, kernel, q, n).Go? && AllOpen(Pfree(L, vm, kernel, q, n).vm.phys, vm.dirs)
  {
    hide TreeOk, BitsOk, Removable, FreeRun, VirtualAddrToPhysicAddr, AllOpen;
    FirstPage(L, vm, o, kernel, q, n);
    FreeRunOpen(L, vm, o, kernel, q, n);
  }

  // ----- CreatPDE

  lemma CreatPDEOpen(L: Layout, vm: Vm, o: Owners)
    requires VmOk(L, vm, o) && CreatPDE(L, vm).Got? && AllOpen(vm.phys, vm.dirs)
    ensures AllOpen(CreatPDE(L, vm).vm.phys, CreatPDE(L, vm).vm.dirs)
  {
    hide CoreOk, BitsOk, MapsRun, Unmapped, Palloc, TablesOk, NewDirectory, VirtualAddrToPhysicAddr, AllOpen;
    var o1 := PallocOk(L, vm, o, true, 1);
    var q, v := Palloc(L, vm, true, 1).page, Palloc(L, vm, true, 1).vm;
    CoreHasTables(L, vm, o);
    CoreHasTables(L, v, o1);
    FreshDirectory(L, vm, v, o1, q);
    PallocOpen(L, vm, o, true, 1);
    DirectoryOpen(L, v.phys, v.dirs, o1, v.cr3, q);
  }

  lemma DirectoryOpen(L: Layout, m: Memory, dirs: seq<nat>, o: Owners, src: nat, q: nat)
    requires TablesOk(L, m, dirs, o) && KernelPage(q) && KFrame(m, q).Some? && AllOpen(m, dirs)
    requires (forall p: nat | p < |dirs| :: dirs[p] != q) && KernelPart(m, src) && src != KFrame(m, q).value
    ensures AllOpen(NewDirectory(m, src, KFrame(m, q).value), dirs + [q])
  {
    hide EntriesOk, OwnersOk, NewDirectory, FrameAt, Open, HasTable, PteWord;
    var d, ds := KFrame(m, q).value, dirs + [q];
    var m' := NewDirectory(m, src, d);
    NewDirectoryOk(L, m, dirs, o, src, q);
    NewDirectoryIs(m, src, d);
    OpenEntries(0);
    PageIsNoBootFrame(L, m, dirs, o, q);
    forall r: nat | KERNEL_BASE <= r < KERNEL_TOP ensures Open(Load(m', KWord(r))) {
      assert SameFrame(m, m', KWord(r) / DIRECTORY);
    }
    assert Dir(m', q) == d;
    forall p: nat, i: nat | p < |ds| && UserDir(i) ensures Open(DirEntry(m', Dir(m', ds[p]), i)) {
      if p < |dirs| {
        OtherDirectory(L, m, dirs, o, p, q);
        assert SameFrame(m, m', Dir(m, dirs[p])) && DirEntry(m', Dir(m, dirs[p]), i) == DirEntry(m, Dir(m, dirs[p]), i);
      }
    }
    forall p: nat, u: nat | p < |ds| && UserPage(u) && HasTable(m', Dir(m', ds[p]), u)
      ensures Open(Load(m', PteWord(m', Dir(m', ds[p]), u)))
    {
      if p < |dirs| { OtherTable(L, m, m', dirs, o, p, q, u); } else { NoTableYet(m', d, u); }
    }
  }

  lemma PageIsNoBootFrame(L: Layout, m: Memory, dirs: seq<nat>, o: Owners, q: nat)
    requires TablesOk(L, m, dirs, o) && KernelPage(q) && KFrame(m, q).Some?
    ensures KERNEL_FIRST <= KFrame(m, q).value && Owns(o, KFrame(m, q).value, KPage(q))
    ensures forall r: nat | KERNEL_BASE <= r < KERNEL_TOP :: KWord(r) / DIRECTORY < KERNEL_FIRST
  {
    assert Owns(o, KFrame(m, q).value, KPage(q)) && OwnerOk(L, m, dirs, KFrame(m, q).value, KPage(q));
  }

  lemma OtherDirectory(L: Layout, m: Memory, dirs: seq<nat>, o: Owners, p: nat, q: nat)
    requires TablesOk(L, m, dirs, o) && KernelPage(q) && KFrame(m, q).Some? && p < |dirs| && dirs[p] != q
    ensures Dir(m, dirs[p]) != KFrame(m, q).value
  {
    DirIsOwned(L, m, dirs, o, p);
    PageIsNoBootFrame(L, m, dirs, o, q);
  }

  lemma OtherTable(L: Layout, m: Memory, m': Memory, dirs: seq<nat>, o: Owners, p: nat, q: nat, u: nat)
    requires TablesOk(L, m, dirs, o) && KernelPage(q) && KFrame(m, q).Some? && p < |dirs| && dirs[p] != q
    requires AllOpen(m, dirs) && UserPage(u) && HasTable(m', Dir(m, dirs[p]), u)
    requires forall f: nat | f != KFrame(m, q).value :: SameFrame(m, m', f)
    ensures Open(Load(m', PteWord(m', Dir(m, dirs[p]), u)))
  {
    hide TablesOk, Open, KFrame;
    var d := Dir(m, dirs[p]);
    OtherDirectory(L, m, dirs, o, p, q);
    PageIsNoBootFrame(L, m, dirs, o, q);
    assert SameFrame(m, m', d);
    assert Load(m', PdeWord(d, u)) == Load(m, PdeWord(d, u));
    TableIsOwned(L, m, dirs, o, p, u);
    assert SameFrame(m, m', FrameOf(Load(m, PdeWord(d, u))));
    assert Load(m', PteWord(m', d, u)) == Load(m, PteWord(m, d, u));
  }

  lemma NoTableYet(m: Memory, d: nat, u: nat)
    requires UserPage(u) && forall i: nat | UserDir(i) :: DirEntry(m, d, i) == 0
    ensures !HasTable(m, d, u)
  {
    assert DirEntry(m, d, u / 1024) == Load(m, PdeWord(d, u));
  }

  // ----- every operation, every run

  ghost predicate Accessible(L: Layout, vm: Vm)
  {
    Sound(L, vm) && AllOpen(vm.phys, vm.dirs)
  }

  lemma OpKeepsAccess(L: Layout, vm: Vm, op: Op)
    requires Accessible(L, vm) && Legal(L, vm, op) && Perform(L, vm, op).Go?
    ensures Accessible(L, Perform(L, vm, op).vm)
  {
    hide VmOk, Palloc, Pfree, CreatPDE, ActivePDE, Removable, RunReturnable, AllOpen;
    OpKeeps(L, vm, op);
    var o: Owners :| VmOk(L, vm, o);
    match op {
      case Allocate(k, n) =>
        if Palloc(L, vm, k, n).Got? {
          PallocOpen(L, vm, o, k, n);
          var o' := PallocOk(L, vm, o, k, n);
        }
      case Release(k, q, n) =>
        PfreeOpen(L, vm, o, k, q, n);
        var o' := PfreeOk(L, vm, o, k, q, n);
      case NewProcess => if CreatPDE(L, vm).Got? { CreatPDEOpen(L, vm, o); }
      case SwitchTo(to) => ActivePDEOk(L, vm, o, to);
    }
  }

  // Over every run that starts so, as boot does: every state is.
  lemma {:induction false} RunAccess(L: Layout, states: seq<Vm>, ops: seq<Op>, k: nat)
    requires Trace(L, states, ops) && Accessible(L, states[0]) && k < |states|
    ensures Accessible(L, states[k])
  {
    hide Accessible, Legal;
    if k > 0 {
      RunAccess(L, states, ops, k - 1);
      var before, after := states[k - 1], states[k];
      assert Legal(L, before, ops[k - 1]) && Perform(L, before, ops[k - 1]) == Go(after);
      OpKeepsAccess(L, states[k - 1], ops[k - 1]);
    }
  }

  // Boot leaves such a state, with the first 256 pages of the kernel mapped and no other.
  lemma BootOpen(m: Memory)
    requires forall q: nat | KERNEL_BASE <= q < HEAP_BASE :: Open(Load(m, KWord(q)))
    requires forall q: nat | KernelPage(q) :: KFrame(m, q) == None
    ensures AllOpen(m, [])
  {
    forall q: nat | HEAP_BASE <= q < KERNEL_TOP ensures Open(Load(m, KWord(q))) { assert KFrame(m, q) == None; }
  }

  // In such a state every process reads and writes, in user mode, every page that is mapped in it.
  lemma UserReaches(L: Layout, vm: Vm, p: nat, q: nat, offset: nat, write: bool)
    requires Accessible(L, vm) && p < |vm.dirs| && UserPage(q) && offset < 4096
    ensures UserWalk(vm.phys, Dir(vm.phys, vm.dirs[p]), q * 4096 + offset, write) ==
            match Backing(vm.phys, vm.dirs, User(p, q)) { case None => None case Some(f) => Some(f * 4096 + offset) }
  {
    hide AllOpen, UserWalk, Walk, FrameAt, CoreOk, BitsOk, DirsOk, TablesOk;
    var o: Owners :| VmOk(L, vm, o);
    CoreHasTables(L, vm, o);
    UserSees(vm.phys, vm.dirs, p, q * 4096 + offset, write);
    WalkIsFrameAt(vm.phys, Dir(vm.phys, vm.dirs[p]), q, offset);
  }

  // What palloc hands to a process, the process can read and write in user mode at once.
  lemma PallocForUser(L: Layout, vm: Vm, n: nat, v: nat, write: bool)
    requires Accessible(L, vm) && MayAsk(vm, false) && Palloc(L, vm, false, n).Got?
    requires Palloc(L, vm, false, n).page <= v / 4096 < Palloc(L, vm, false, n).page + n
    ensures var vm' := Palloc(L, vm, false, n).vm;
            && Accessible(L, vm')
            && UserWalk(vm.phys, vm.cr3, v, write) == None
            && UserWalk(vm'.phys, vm'.cr3, v, write).Some?
  {
    hide AllOpen, UserWalk, Palloc, VmOk;
    var o: Owners :| VmOk(L, vm, o);
    var o' := PallocOk(L, vm, o, false, n);
    var vm' := Palloc(L, vm, false, n).vm;
    PallocOpen(L, vm, o, false, n);
    CurrentDirectory(L, vm, o);
    CurrentDirectory(L, vm', o');
    var x := User(Who(vm), v / 4096);
    assert Managed(vm.dirs, x) && InRun(false, Who(vm), Palloc(L, vm, false, n).page, n, x);
    assert v == v / 4096 * 4096 + v % 4096;
    UserReaches(L, vm, Who(vm), v / 4096, v % 4096, write);
    UserReaches(L, vm', Who(vm), v / 4096, v % 4096, write);
  }

  lemma CurrentDirectory(L: Layout, vm: Vm, o: Owners)
    requires VmOk(L, vm, o) && MayAsk(vm, false)
    ensures Who(vm) < |vm.dirs| && vm.cr3 == Dir(vm.phys, vm.dirs[Who(vm)])
  {
  }

  // A store through the page tables to a data page keeps that.
  lemma StoreKeepsAccess(L: Layout, vm: Vm, x: Place, i: nat, value: nat)
    requires Accessible(L, vm) && DataPage(vm, x) && i < DIRECTORY
    ensures Accessible(L, Store(vm, x, i, value))
  {
    hide AllOpen, VmOk, Seen, Store;
    StoreThrough(L, vm, x, i, value);
    var o: Owners :| VmOk(L, vm, o);
    StoreOpen(L, vm, o, x, i, value);
  }

  lemma StoreOpen(L: Layout, vm: Vm, o: Owners, x: Place, i: nat, value: nat)
    requires VmOk(L, vm, o) && AllOpen(vm.phys, vm.dirs) && DataPage(vm, x) && i < DIRECTORY
    ensures Store(vm, x, i, value).dirs == vm.dirs && AllOpen(Store(vm, x, i, value).phys, vm.dirs)
  {
    hide CoreOk, BitsOk, TablesOk, Open;
    VmHasTables(L, vm, o);
    StoreTables(L, vm, o, x, i, value);
    VmHasTree(L, vm, o);
    DataFrame(L, vm, o, x);
    var f := Backing(vm.phys, vm.dirs, x).value;
    var m, m', dirs := vm.phys, Store(vm, x, i, value).phys, vm.dirs;
    forall r: nat | KERNEL_BASE <= r < KERNEL_TOP ensures Load(m', KWord(r)) == Load(m, KWord(r)) {
      assert KWord(r) / DIRECTORY < KERNEL_FIRST;
    }
    forall p: nat, u: nat | p < |dirs| && UserPage(u) && HasTable(m', Dir(m', dirs[p]), u)
      ensures Open(Load(m', PteWord(m', Dir(m', dirs[p]), u)))
    {
      var d := Dir(m, dirs[p]);
      assert DirEntry(m', d, u / 1024) == DirEntry(m, d, u / 1024);
      assert Load(m', PdeWord(d, u)) == Load(m, PdeWord(d, u));
      TableIsOwned(L, m, dirs, o, p, u);
      assert PteWord(m, d, u) / DIRECTORY == FrameOf(Load(m, PdeWord(d, u)));
    }
  }

  // ----- the entries themselves

  // Present, writable, for the user, and no other flag.
  predicate Plain(e: nat, f: nat) { Present(e) && Writable(e) && ForUser(e) && e % 4096 / 8 == 0 && FrameOf(e) == f }

  // What PageMapping writes for page q: its entry, and the directory's if a table had to be added.
  lemma PageMappingEntries(m: Memory, dir: nat, q: nat, frame: nat, table: Option<nat>)
    requires SelfMapped(m, dir) && q / 1024 < WINDOW && PageMapping(m, dir, q * 4096, frame, table).Done?
    requires table.Some? ==> table.value != dir
    requires HasTable(m, dir, q) ==> FrameOf(Load(m, PdeWord(dir, q))) != dir
    ensures var m' := PageMapping(m, dir, q * 4096, frame, table).m;
            && Plain(Load(m', PteWord(m', dir, q)), frame)
            && (if HasTable(m, dir, q) then Load(m', PdeWord(dir, q)) == Load(m, PdeWord(dir, q))
                else table.Some? && Plain(Load(m', PdeWord(dir, q)), table.value))
  {
    hide PageMapping, SelfMapped, AddTable, SetPte, Entry;
    PageMappingIs(m, dir, q, frame, table);
    PlainEntry(frame);
    if HasTable(m, dir, q) {
      SetPteLoads(m, dir, q, Entry(frame, C_FLAGS));
    } else {
      PlainEntry(table.value);
      AddTableLoads(m, dir, q, table.value);
      EntryParts(table.value);
      SetPteLoads(AddTable(m, dir, q, table.value), dir, q, Entry(frame, C_FLAGS));
    }
  }

  lemma PlainEntry(f: nat)
    ensures Plain(Entry(f, C_FLAGS), f)
  {
    EntryBits(f, C_FLAGS);
  }
}
