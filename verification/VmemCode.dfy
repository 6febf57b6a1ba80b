// The paging code as it updates memory, bitmaps and registers in place, proved against the
// functions of Vmem (source/boot/loader.S:136-181, source/kernel/memory.c:36-76 and 165-307,
// source/userprog/process.c:39-60 and 96-106).
module VmemCode {
  import opened Basics
  import opened BitSets
  import opened Bitmaps
  import opened Frames
  import opened FramePools
  import opened Paging
  import opened Spaces
  import opened Vmem
  import opened VmemAccess

  // What a call gives back: a page, NULL, nothing, or no return because an ASSERT failed or a fault
  // occurred.
  datatype Returned = Page(page: nat) | NullPage | Completed | Spins | Faults

  function Answer(a: Alloc): Returned
  {
    match a case Got(q, _) => Page(q) case Null => NullPage case NoReturn => Spins case KernelFault => Faults
  }

  const USER_BYTES := USER_BITS / 8

  ghost function UsedOf(bs: seq<Bitmap>): (r: seq<set<nat>>)
    reads set b | b in bs :: b.mem
    ensures |r| == |bs| && forall p | 0 <= p < |bs| :: r[p] == bs[p].Used()
  {
    if bs == [] then [] else UsedOf(bs[..|bs| - 1]) + [bs[|bs| - 1].Used()]
  }

  class Machine {
    const L: Layout
    const frames: PhysicalPools    // the pools and the kernel's virtual bitmap, side by side in bytes
    ghost const guard: bool        // the bit past the kernel's virtual bitmap is set and stands for no page
    var phys: Memory
    var cr3: nat
    var dirs: seq<nat>
    var users: seq<Bitmap>         // each process's virtual bitmap
    var current: Option<nat>

    // The byte arrays behind the bitmaps.
    ghost function Arrays(): set<array<bv8>>
      reads this
    {
      {frames.mem} + set b | b in users :: b.mem
    }

    ghost predicate Wired()
      reads this, frames.mem
    {
      && frames.Valid() && frames.L == L && (guard ==> 8 * L.KernelBytes() in frames.kernelPages.Used())
      && (forall p | 0 <= p < |users| :: users[p].Valid() && users[p].len == USER_BYTES && users[p].mem != frames.mem)
      && (forall p, r | 0 <= p < r < |users| :: users[p].mem != users[r].mem)
    }

    ghost function View(): Vm
      reads this, frames.mem, Arrays()
      requires Wired()
    {
      Vm(phys, cr3, frames.View(), KernelBits(), guard, dirs, UsedOf(users), current)
    }

    ghost function KernelBits(): set<nat>
      reads frames.mem
      requires frames.Valid()
    {
      frames.kernelPages.Used() - (if guard then {8 * L.KernelBytes()} else {})
    }

    // Power-on, after VmemPoolInit: page tables are not yet set up. `ram` is what the memory holds.
    constructor (frames: PhysicalPools, ram: Memory)
      requires frames.Valid() && forall i: nat | i < 8 * frames.kernelPages.len :: i !in frames.kernelPages.Used()
      ensures this.frames == frames && L == frames.L && Wired() && users == []
      ensures View() == Vm(ram, BOOT, frames.View(), {}, guard, [], [], None)
    {
      L, this.frames := frames.L, frames;
      guard := 8 * frames.L.KernelBytes() in frames.kernelPages.Used();
      phys, cr3, dirs, users, current := ram, BOOT, [], [], None;
      new;
      assert KernelBits() == {};
    }

    // loader.S:136-181. The tables behind the first 256 entries are not cleared, so which heap pages
    // start out mapped is up to the memory's contents.
    method SetupPage()
      modifies this`phys
      ensures KernelPart(phys, BOOT) && LowOk(phys)
      ensures forall i: nat | UserDir(i) :: DirEntry(phys, BOOT, i) == 0
      ensures Load(phys, 0x40000) == 0x101000 + 111 && Load(phys, 0x40000 + 1023) == 0x100000 + 111
      ensures forall a: nat | 0x40000 + 768 <= a < 0x40000 + 1023 :: Load(phys, a) == 0x101000 + 4096 * (a - 0x40300) + 111
      ensures forall a: nat | 0x40400 <= a < 0x40500 :: Load(phys, a) == 4096 * (a - 0x40400) + 111
      ensures forall a: nat | !(BOOT * DIRECTORY <= a < (BOOT + 1) * DIRECTORY + 256) :: Load(phys, a) == old(Load(phys, a))
    {
      var base := BOOT * DIRECTORY;
      ClearWords(base, base + DIRECTORY);
      ghost var cleared := phys;
      StoreLoad(phys, base, Entry(FIRST_TABLE, BOOT_FLAGS));
      phys := phys[base := Entry(FIRST_TABLE, BOOT_FLAGS)];
      StoreLoad(phys, base + USER_DIRS, Entry(FIRST_TABLE, BOOT_FLAGS));
      phys := phys[base + USER_DIRS := Entry(FIRST_TABLE, BOOT_FLAGS)];
      StoreLoad(phys, base + WINDOW, Entry(BOOT, BOOT_FLAGS));
      phys := phys[base + WINDOW := Entry(BOOT, BOOT_FLAGS)];
      EntrySeries(base + DIRECTORY, base + DIRECTORY + 256, 0);
      EntrySeries(base + USER_DIRS + 1, base + WINDOW, FIRST_TABLE + 1);
      forall j: nat | UserDir(j) ensures DirEntry(phys, BOOT, j) == 0 { assert Load(cleared, base + j) == 0; }
      forall q: nat | KERNEL_BASE <= q < HEAP_BASE ensures KFrame(phys, q) == Some(q - KERNEL_BASE) {
        assert Load(phys, KWord(q)) == Entry(q - KERNEL_BASE, BOOT_FLAGS);
        EntryParts(q - KERNEL_BASE);
      }
    }

    // loader.S:139-144
    method ClearWords(lo: nat, hi: nat)
      requires lo <= hi
      modifies this`phys
      ensures forall x: nat | lo <= x < hi :: Load(phys, x) == 0
      ensures forall x: nat | !(lo <= x < hi) :: Load(phys, x) == old(Load(phys, x))
    {
      var a: nat := lo;
      while a < hi
        invariant lo <= a <= hi
        invariant forall x: nat | lo <= x < a :: Load(phys, x) == 0
        invariant forall x: nat | !(lo <= x < a) :: Load(phys, x) == old(Load(phys, x))
      {
        ghost var m := phys;
        StoreLoad(m, a, 0);
        phys := phys[a := 0];
        forall x: nat | lo <= x < a + 1 ensures Load(phys, x) == 0 { if x != a { assert Load(m, x) == 0; } }
        a := a + 1;
      }
    }

    // loader.S:161-168 and 170-180: consecutive entries for consecutive frames.
    method EntrySeries(lo: nat, hi: nat, frame: nat)
      requires lo <= hi
      modifies this`phys
      ensures forall x: nat | lo <= x < hi :: Load(phys, x) == Entry(frame + (x - lo), BOOT_FLAGS)
      ensures forall x: nat | !(lo <= x < hi) :: Load(phys, x) == old(Load(phys, x))
    {
      var a: nat := lo;
      while a < hi
        invariant lo <= a <= hi
        invariant forall x: nat | lo <= x < a :: Load(phys, x) == Entry(frame + (x - lo), BOOT_FLAGS)
        invariant forall x: nat | !(lo <= x < a) :: Load(phys, x) == old(Load(phys, x))
      {
        ghost var m := phys;
        StoreLoad(m, a, Entry(frame + (a - lo), BOOT_FLAGS));
        phys := phys[a := Entry(frame + (a - lo), BOOT_FLAGS)];
        forall x: nat | lo <= x < a + 1 ensures Load(phys, x) == Entry(frame + (x - lo), BOOT_FLAGS) {
          if x != a { assert Load(m, x) == Entry(frame + (x - lo), BOOT_FLAGS); }
        }
        a := a + 1;
      }
    }

    // loader.S:106 and memory.c:390-395: boot leaves a sound state exactly when no heap page starts
    // out mapped by what the memory happens to hold.
    method Boot()
      requires Wired() && LayoutOk(L) && View() == Vm(phys, BOOT, Pools({}, {}), {}, guard, [], [], None)
      modifies this`phys
      ensures Sound(L, View()) <==> forall q: nat | KernelPage(q) :: old(KFrame(phys, q)) == None
      ensures Sound(L, View()) ==> Accessible(L, View())
    {
      ghost var was := phys;
      SetupPage();
      forall q: nat | KernelPage(q) ensures KFrame(phys, q) == KFrame(was, q) {
        assert Load(phys, KWord(q)) == Load(was, KWord(q));
      }
      if forall q: nat | KernelPage(q) :: KFrame(phys, q) == None {
        BootSound(L, phys, guard);
        forall q: nat | KERNEL_BASE <= q < HEAP_BASE ensures Open(Load(phys, KWord(q))) {
          assert Load(phys, KWord(q)) == Entry(q - KERNEL_BASE, BOOT_FLAGS) by { assert KWord(q) == 0x40400 + (q - KERNEL_BASE); }
          OpenEntries(q - KERNEL_BASE);
        }
        BootOpen(phys);
      } else {
        MappedIsUnsound(L, View());
      }
    }

    // memory.c:36-76
    method GetVirtualPage(kernel: bool, cnt: nat) returns (r: ScanResult)
      requires Wired() && MayAsk(View(), kernel)
      modifies Arrays()
      ensures Wired() && r == Scan(Bits(L, old(View()), kernel), BitCount(L, kernel), cnt)
      ensures View() == if r.Found? then WithBits(old(View()), kernel, Interval(r.start, cnt), {}) else old(View())
    {
      if kernel {
        r := ScanKernel(cnt);
        if r.Found? { SetKernelRun(r.start, cnt, true); }
      } else {
        r := ScanUser(cnt);
        if r.Found? { SetUserRun(r.start, cnt, true); }
      }
    }

    // memory.c:44
    method ScanKernel(cnt: nat) returns (r: ScanResult)
      requires Wired()
      ensures r == Scan(Bits(L, View(), true), BitCount(L, true), cnt)
      ensures r.Found? && cnt > 0 ==> r.start + cnt <= 8 * L.KernelBytes() + 1 && (guard ==> 8 * L.KernelBytes() !in Interval(r.start, cnt))
    {
      r := frames.kernelPages.BitmapScan(cnt);
      assert Bits(L, View(), true) == frames.kernelPages.Used();
      if cnt > 0 { ScanFoundIsClear(frames.kernelPages.Used(), 8 * L.KernelBytes(), cnt); }
    }

    // memory.c:61
    method ScanUser(cnt: nat) returns (r: ScanResult)
      requires Wired() && MayAsk(View(), false)
      ensures r == Scan(Bits(L, View(), false), BitCount(L, false), cnt)
      ensures r.Found? && cnt > 0 ==> r.start + cnt <= USER_BITS + 1
    {
      UserView();
      hide Scan, RunClear, Wired, View;
      r := users[current.value].BitmapScan(cnt);
      if cnt > 0 { ScanFoundIsClear(users[current.value].Used(), USER_BITS, cnt); }
    }

    lemma UserView()
      requires Wired() && MayAsk(View(), false)
      ensures current.Some? && current.value < |users|
      ensures var b := users[current.value];
              b.Valid() && 8 * b.len == USER_BITS && Bits(L, View(), false) == b.Used()
    {
    }

    // memory.c:46-49 and 172-175
    method SetKernelRun(s: nat, n: nat, value: bool)
      requires Wired() && (n > 0 ==> s + n <= 8 * L.KernelBytes() + 1 && (guard ==> 8 * L.KernelBytes() !in Interval(s, n)))
      modifies frames.mem
      ensures Wired()
      ensures View() == if value then WithBits(old(View()), true, Interval(s, n), {}) else WithBits(old(View()), true, {}, Interval(s, n))
    {
      ghost var a, vm := AllBits(frames.mem), View();
      SetRun(frames.kernelPages, s, n, value);
      frames.ViewSame(a, AllBits(frames.mem));
      RunOfBits(vm.kbits, KernelBits(), s, n, value);
    }

    // memory.c:63-66 and 182-186
    method SetUserRun(s: nat, n: nat, value: bool)
      requires Wired() && MayAsk(View(), false) && (n > 0 ==> s + n <= USER_BITS + 1)
      modifies users[current.value].mem
      ensures Wired()
      ensures View() == if value then WithBits(old(View()), false, Interval(s, n), {}) else WithBits(old(View()), false, {}, Interval(s, n))
    {
      UserView();
      ghost var vm, p := View(), current.value;
      var b := users[current.value];
      ghost var was := b.Used();
      SetRun(b, s, n, value);
      hide AllBits;
      RunOfBits(was, b.Used(), s, n, value);
      hide Interval, Bitmap.Used;
      assert UsedOf(users) == vm.ubits[p := b.Used()];
    }

    // The loops over BitmapSetBit.
    method SetRun(b: Bitmap, s: nat, n: nat, value: bool)
      requires b.Valid() && (n > 0 ==> s + n <= 8 * b.len + 1)
      modifies b.mem
      ensures forall g: nat ::
                g in AllBits(b.mem) <==> if 8 * b.base + s <= g < 8 * b.base + s + n then value else g in old(AllBits(b.mem))
    {
      ghost var was := AllBits(b.mem);
      var i := 0;
      while i < n
        invariant i <= n
        invariant forall g: nat ::
                    g in AllBits(b.mem) <==> if 8 * b.base + s <= g < 8 * b.base + s + i then value else g in was
      {
        b.SetBit(s + i, value);
        i := i + 1;
      }
    }

    // memory.c:127-153
    method MapPage(v: nat, frame: nat) returns (r: Returned)
      requires Wired()
      modifies this`phys, frames.mem
      ensures Wired() && KernelBits() == old(KernelBits())
      ensures var table := GetFrame(L, old(frames.View()), true);
              match PageMapping(old(phys), cr3, v, frame, if table.Some? then Some(table.value.0) else None)
              case Done(m) => r == Completed && phys == m &&
                frames.View() == if NeedsTable(old(phys), cr3, v) && table.Some? then table.value.1 else old(frames.View())
              case Halted => r == Spins
              case Fault => r == Faults
    {
      hide VLoad, VStore, VClear, GetFrame;
      var pde := VLoad(phys, cr3, GetPDEPointer(v));
      if pde.None? { return Faults; }
      var m: Option<Memory>;
      if Present(pde.value) {
        var pte := VLoad(phys, cr3, GetPTEPointer(v));
        if pte.None? { return Faults; }
        if Present(pte.value) { return Spins; }
      } else {
        var t := frames.GetOnePhysicPage(true);
        if t.None? { return Spins; }
        m := VStore(phys, cr3, GetPDEPointer(v), Entry(t.value, C_FLAGS));
        if m.None? { return Faults; }
        phys := m.value;
        m := VClear(phys, cr3, GetPTEPointer(v));
        if m.None? { return Faults; }
        phys := m.value;
      }
      m := VStore(phys, cr3, GetPTEPointer(v), Entry(frame, C_FLAGS));
      if m.None? { return Faults; }
      phys := m.value;
      return Completed;
    }

    // memory.c:256-263
    method MapNext(kernel: bool, q: nat) returns (r: Returned)
      requires Wired()
      modifies this`phys, frames.mem
      ensures Wired()
      ensures match MapOne(L, old(View()), kernel, q)
              case Go(vm) => r == Completed && View() == vm
              case Stuck => r == Spins
              case Trap => r == Faults
    {
      hide GetFrame, PageMapping, NeedsTable, UsedOf, AllBits, Bitmap.Used;
      var f := frames.GetOnePhysicPage(kernel);
      if f.None? { return Spins; }
      r := MapPage(q * 4096, f.value);
    }

    // memory.c:242-268
    method PallocPages(kernel: bool, cnt: nat) returns (r: Returned)
      requires Wired() && MayAsk(View(), kernel)
      modifies this`phys, Arrays()
      ensures Wired()
      ensures r == Answer(Palloc(L, old(View()), kernel, cnt))
      ensures r.Page? ==> View() == Palloc(L, old(View()), kernel, cnt).vm
      ensures r.NullPage? ==> View() == old(View())
    {
      hide MapOne, Scan, WithBits, Bits, Wired, View;
      if cnt >= PAGE_LIMIT { return Spins; }
      var s := GetVirtualPage(kernel, cnt);
      if s.Halted? { return Spins; }
      if s.NotFound? { return NullPage; }
      var first := Base(kernel) + s.start;
      var q: nat, left: nat := first, cnt;
      ghost var start := View();
      while left > 0
        invariant Wired() && left <= cnt
        invariant MapRun(L, start, kernel, first, cnt) == MapRun(L, View(), kernel, q, left)
      {
        r := MapNext(kernel, q);
        if !r.Completed? { return; }
        q, left := q + 1, left - 1;
      }
      return Page(first);
    }

    // memory.c:156-162
    method UnmapPage(v: nat) returns (r: Returned)
      modifies this`phys
      ensures match PageUnmapping(old(phys), cr3, v)
              case Done(m) => r == Completed && phys == m
              case Halted => false
              case Fault => r == Faults
    {
      var pte := VLoad(phys, cr3, GetPTEPointer(v));
      if pte.None? { return Faults; }
      var m := VStore(phys, cr3, GetPTEPointer(v), 0);
      if m.None? { return Faults; }
      phys := m.value;
      return Completed;
    }

    // memory.c:284-290 and 298-304
    method FreeNext(user: bool, q: nat) returns (r: Returned)
      requires Wired()
      modifies this`phys, frames.mem
      ensures Wired()
      ensures match FreeOne(L, old(View()), user, q)
              case Go(vm) => r == Completed && View() == vm
              case Stuck => r == Spins
              case Trap => r == Faults
    {
      hide PageUnmapping, VirtualAddrToPhysicAddr, PutFrame, UsedOf, AllBits;
      var a := VirtualAddrToPhysicAddr(phys, cr3, q * 4096);
      if a.None? { return Faults; }
      var f := a.value / 4096;
      if user != (f >= L.UserFirst()) { return Spins; }
      if !L.KernelFrame(f) && !L.UserFrame(f) { return Faults; }
      frames.ReturnOnePhysicPage(f);
      r := UnmapPage(q * 4096);
    }

    // memory.c:270-307
    method PfreePages(kernel: bool, first: nat, cnt: nat) returns (r: Returned)
      requires Wired() && MayAsk(View(), kernel) && InBitmap(kernel, first, cnt)
      modifies this`phys, Arrays()
      ensures Wired()
      ensures match Pfree(L, old(View()), kernel, first, cnt)
              case Go(vm) => r == Page(first) && View() == vm
              case Stuck => r == Spins
              case Trap => r == Faults
    {
      hide FreeRun, WithBits, VirtualAddrToPhysicAddr, Wired, Interval, InBitmap;
      if cnt == 0 { return Spins; }
      var a := VirtualAddrToPhysicAddr(phys, cr3, first * 4096);
      if a.None? { return Faults; }
      if a.value <= LOWEST_FREED * 4096 { return Spins; }
      hide View;
      r := FreePages(a.value / 4096 >= L.UserFirst(), first, cnt);
      if !r.Completed? { return; }
      ReturnVirtualPage(kernel, first, cnt);
      return Page(first);
    }

    // memory.c:282-291 and 296-305
    method FreePages(user: bool, first: nat, cnt: nat) returns (r: Returned)
      requires Wired()
      modifies this`phys, frames.mem
      ensures Wired() && users == old(users)
      ensures match FreeRun(L, old(View()), user, first, cnt)
              case Go(vm) => r == Completed && View() == vm
              case Stuck => r == Spins
              case Trap => r == Faults
    {
      hide FreeOne, FreeRun, Wired, View;
      ghost var start := View();
      var q: nat, left: nat := first, cnt;
      while left > 0
        invariant Wired() && left <= cnt && users == old(users)
        invariant FreeRun(L, start, user, first, cnt) == FreeRun(L, View(), user, q, left)
      {
        FreeRunFirst(L, View(), user, q, left);
        r := FreeNext(user, q);
        if !r.Completed? { return; }
        q, left := q + 1, left - 1;
      }
      FreeRunFirst(L, View(), user, q, 0);
      return Completed;
    }

    // memory.c:165-188
    method ReturnVirtualPage(kernel: bool, first: nat, cnt: nat)
      requires Wired() && MayAsk(View(), kernel) && InBitmap(kernel, first, cnt)
      modifies Arrays()
      ensures Wired() && View() == WithBits(old(View()), kernel, {}, Interval(first - Base(kernel), cnt))
    {
      hide Wired, View, WithBits, Interval, InBitmap, Bits, UsedOf;
      RunBounds(kernel, first, cnt);
      if !kernel { UserView(); }
      if kernel {
        SetKernelRun(first - Base(kernel), cnt, false);
      } else {
        SetUserRun(first - Base(kernel), cnt, false);
      }
    }

    lemma RunBounds(kernel: bool, first: nat, cnt: nat)
      requires InBitmap(kernel, first, cnt)
      ensures Base(kernel) <= first
      ensures cnt > 0 && kernel ==> first - Base(kernel) + cnt <= 8 * L.KernelBytes() + 1
      ensures cnt > 0 && kernel && guard ==> 8 * L.KernelBytes() !in Interval(first - Base(kernel), cnt)
      ensures cnt > 0 && !kernel ==> first - Base(kernel) + cnt <= USER_BITS + 1
    {
    }

    // The run's bits are bits of the virtual bitmap, or the one past it where that may stand for a page.
    ghost predicate InBitmap(kernel: bool, first: nat, cnt: nat)
    {
      Base(kernel) <= first && (cnt > 0 ==> first - Base(kernel) + cnt <= BitCount(L, kernel) + if kernel && guard then 0 else 1)
    }

    // process.c:96-106. Whichever process is current, the wanted directory is loaded, and the kernel
    // part of the address space stays as it is.
    method SwitchDirectory(to: Option<nat>)
      requires Wired() && Sound(L, View()) && (to.Some? ==> to.value < |dirs|)
      modifies this`cr3, this`current
      ensures Wired() && Sound(L, View()) && View() == old(View()).(cr3 := cr3, current := to)
      ensures cr3 == if to.Some? then Dir(phys, dirs[to.value]) else BOOT
      ensures forall v: nat | KERNEL_BASE * 4096 <= v < KERNEL_TOP * 4096 :: Walk(phys, cr3, v) == Walk(phys, old(cr3), v)
    {
      hide VirtualAddrToPhysicAddr, Sound, Walk, Dir, UsedOf, AllBits, Bitmap.Used, Interval;
      SwitchFacts(L, View(), to);
      if to.None? {
        cr3, current := BOOT, None;
      } else {
        var a := VirtualAddrToPhysicAddr(phys, cr3, dirs[to.value] * 4096);
        cr3, current := a.value / 4096, to;
      }
    }

    // process.c:62-85: pages for the virtual bitmap, then the directory. It never faults, and what it
    // makes is a sound new address space.
    method CreateSpace() returns (r: Returned)
      requires Wired() && Sound(L, View())
      modifies this, Arrays()
      ensures Wired() && r == Answer(NewSpace(L, old(View()))) && (r.Page? || r.Spins?)
      ensures r.Page? ==> View() == NewSpace(L, old(View())).vm && Sound(L, View())
      ensures r.Page? ==> dirs == old(dirs) + [r.page] && current == old(current)
    {
      hide VmOk, Palloc, CreatPDE, Wired, View, Sound;
      ghost var vm := View();
      SpaceFacts(L, vm);
      r := PallocPages(true, BITMAP_PAGES);
      if r.NullPage? { return Spins; }
      if !r.Page? { return; }
      assert BITMAP_PAGES * 4096 > USER_BYTES;                                 // the ASSERT of process.c:71
      r := CreateDirectory();
      if r.NullPage? { return Spins; }
    }

    // process.c:39-60 with kpalloc
    method CreateDirectory() returns (r: Returned)
      requires Wired() && Sound(L, View())
      modifies this, Arrays()
      ensures Wired() && r == Answer(CreatPDE(L, old(View())))
      ensures r.Page? ==> View() == CreatPDE(L, old(View())).vm && dirs == old(dirs) + [r.page] && current == old(current)
    {
      hide VmOk, Palloc, NewDirectory, VirtualAddrToPhysicAddr, KernelPart, Wired, View;
      ghost var vm := View();
      r := PallocPages(true, 1);
      if !r.Page? { return; }
      NewDirectoryPage(L, vm);
      FillSpace(r.page);
      AddSpace(r.page);
    }

    method FillSpace(q: nat)
      requires Wired() && KernelPage(q) && KernelPart(View().phys, View().cr3) && KFrame(View().phys, q).Some?
      requires KERNEL_FIRST <= KFrame(View().phys, q).value && KFrame(View().phys, q).value != View().cr3
      modifies this`phys
      ensures Wired()
      ensures var vm := old(View()); View() == vm.(phys := NewDirectory(vm.phys, vm.cr3, KFrame(vm.phys, q).value))
    {
      hide NewDirectory, KFrame, KernelPart;
      FillDirectory(q);
    }

    // process.c:80-82: the directory's page and the virtual bitmap are recorded in the PCB
    method AddSpace(q: nat)
      requires Wired()
      modifies this`dirs, this`users
      ensures Wired() && (forall b | b in users :: b in old(users) || fresh(b.mem)) && dirs == old(dirs) + [q]
      ensures var vm := old(View()); View() == vm.(dirs := vm.dirs + [q], ubits := vm.ubits + [{}])
    {
      hide UsedOf, AllBits, Bitmap.Used;
      var b := UserBitmap();
      UsedOfMore(users, b);
      dirs, users := dirs + [q], users + [b];
    }

    // process.c:62-76: pages of kpalloc, which are zero
    method UserBitmap() returns (b: Bitmap)
      ensures fresh(b) && fresh(b.mem) && b.Valid() && b.len == USER_BYTES && b.Used() == {}
    {
      var mem := new bv8[BITMAP_PAGES * 4096](_ => 0);
      ZeroBits(mem[..], 8 * mem.Length);
      b := new Bitmap(mem, 0, USER_BYTES);
      b.Init();
    }

    // process.c:39-60: the entries are read through the window and written through kernel page q.
    method FillDirectory(q: nat)
      requires KernelPage(q) && KernelPart(phys, cr3) && KFrame(phys, q).Some?
      requires KERNEL_FIRST <= KFrame(phys, q).value && KFrame(phys, q).value != cr3
      modifies this`phys
      ensures phys == NewDirectory(old(phys), cr3, old(KFrame(phys, q).value))
    {
      hide Copied, KernelPart, KFrame, DirEntry;
      var d := KFrame(phys, q).value;
      ghost var was := phys;
      phys := phys + Zeros(d * DIRECTORY, DIRECTORY);
      DirectoryReach(was, phys, cr3, q, d);
      hide Reaches, Zeros;
      CopyKernelEntries(q, d);
      CopyFirstEntry(q, d);
      phys := phys[d * DIRECTORY + WINDOW := Entry(d, BOOT_FLAGS)];
    }

    // process.c:52-54
    method CopyFirstEntry(q: nat, d: nat)
      requires Reaches(phys, cr3, q, d)
      modifies this`phys
      ensures phys == old(phys)[d * DIRECTORY := DirEntry(old(phys), cr3, 0)]
    {
      EntryAccess(phys, cr3, q, d, 0, DirEntry(phys, cr3, 0));
      hide Reaches, VLoad, VStore;
      var e := VLoad(phys, cr3, 0xFFFFF000);
      var m := VStore(phys, cr3, q * 4096, e.value);
      phys := m.value;
    }

    // process.c:48-50
    method CopyKernelEntries(q: nat, d: nat)
      requires Reaches(phys, cr3, q, d) && d != cr3
      modifies this`phys
      ensures phys == Copied(old(phys), cr3, d, USER_DIRS, DIRECTORY - USER_DIRS)
      ensures Reaches(phys, cr3, q, d)
    {
      hide Reaches, VLoad, VStore, KernelPart;
      ghost var cleared := phys;
      var i: nat := USER_DIRS;
      while i < DIRECTORY
        invariant USER_DIRS <= i <= DIRECTORY
        invariant Reaches(phys, cr3, q, d)
        invariant phys == Copied(cleared, cr3, d, USER_DIRS, i - USER_DIRS)
      {
        var e := VLoad(phys, cr3, 0xFFFFF000 + 4 * i);
        EntryAccess(phys, cr3, q, d, i, DirEntry(phys, cr3, i));
        CopiedReads(cleared, cr3, d, USER_DIRS, i - USER_DIRS, i);
        var m := VStore(phys, cr3, q * 4096 + 4 * i, e.value);
        StoreReaches(phys, cr3, q, d, i, e.value);
        phys := m.value;
        i := i + 1;
      }
    }
  }

  lemma SwitchFacts(L: Layout, vm: Vm, to: Option<nat>)
    requires Sound(L, vm) && (to.Some? ==> to.value < |vm.dirs|)
    ensures var cr3 := if to.Some? then Dir(vm.phys, vm.dirs[to.value]) else BOOT;
            && Sound(L, vm.(cr3 := cr3, current := to))
            && (to.Some? ==> VirtualAddrToPhysicAddr(vm.phys, vm.cr3, vm.dirs[to.value] * 4096) == Some(cr3 * 4096))
            && forall v: nat | KERNEL_BASE * 4096 <= v < KERNEL_TOP * 4096 :: Walk(vm.phys, cr3, v) == Walk(vm.phys, vm.cr3, v)
  {
    var o: Owners :| VmOk(L, vm, o);
    ActivePDEOk(L, vm, o, to);
    if to.Some? { DirectoryAddress(L, vm, o, to.value); }
    var vm' := ActivePDE(vm, to).vm;
    assert VmOk(L, vm', o);
    forall v: nat | KERNEL_BASE * 4096 <= v < KERNEL_TOP * 4096 ensures Walk(vm.phys, vm'.cr3, v) == Walk(vm.phys, vm.cr3, v) {
      LoadedLikeBoot(L, vm, o, v);
      LoadedLikeBoot(L, vm', o, v);
    }
  }

  lemma LoadedLikeBoot(L: Layout, vm: Vm, o: Owners, v: nat)
    requires VmOk(L, vm, o) && KERNEL_BASE * 4096 <= v < KERNEL_TOP * 4096
    ensures Walk(vm.phys, vm.cr3, v) == Walk(vm.phys, BOOT, v)
  {
    hide Walk;
    if vm.current.Some? { SpacesAgree(L, vm.phys, vm.dirs, o, vm.current.value, v); }
  }

  lemma UsedOfMore(bs: seq<Bitmap>, b: Bitmap)
    ensures UsedOf(bs + [b]) == UsedOf(bs) + [b.Used()]
  {
    assert (bs + [b])[..|bs|] == bs;
  }

  lemma RunOfBits(u: set<nat>, u': set<nat>, s: nat, n: nat, value: bool)
    requires forall i: nat :: i in u' <==> if s <= i < s + n then value else i in u
    ensures u' == if value then u + Interval(s, n) - {} else u + {} - Interval(s, n)
  {
  }

  lemma FreeRunFirst(L: Layout, vm: Vm, user: bool, q: nat, n: nat)
    ensures FreeRun(L, vm, user, q, n) ==
            if n == 0 then Go(vm)
            else match FreeOne(L, vm, user, q) { case Go(vm1) => FreeRun(L, vm1, user, q + 1, n - 1) case out => out }
  {
  }

  // Neither part of a new address space faults, and each keeps the memory manager sound.
  lemma SpaceFacts(L: Layout, vm: Vm)
    requires Sound(L, vm)
    ensures !Palloc(L, vm, true, BITMAP_PAGES).KernelFault?
    ensures Palloc(L, vm, true, BITMAP_PAGES).Got? ==>
              var v := Palloc(L, vm, true, BITMAP_PAGES).vm;
              && Sound(L, v) && !CreatPDE(L, v).KernelFault?
              && (CreatPDE(L, v).Got? ==> Sound(L, CreatPDE(L, v).vm))
  {
    hide VmOk, Palloc, CreatPDE;
    var o: Owners :| VmOk(L, vm, o);
    var o1 := PallocOk(L, vm, o, true, BITMAP_PAGES);
    if Palloc(L, vm, true, BITMAP_PAGES).Got? {
      var v := Palloc(L, vm, true, BITMAP_PAGES).vm;
      assert VmOk(L, v, o1);
      var o2 := CreatPDEOk(L, v, o1);
      if CreatPDE(L, v).Got? { assert VmOk(L, CreatPDE(L, v).vm, o2); }
    }
  }

  // What FillDirectory relies on, and what it leads to.
  lemma NewDirectoryPage(L: Layout, vm: Vm)
    requires Sound(L, vm) && Palloc(L, vm, true, 1).Got?
    ensures var q, v := Palloc(L, vm, true, 1).page, Palloc(L, vm, true, 1).vm;
            && KernelPage(q) && KernelPart(v.phys, v.cr3) && KFrame(v.phys, q).Some?
            && KERNEL_FIRST <= KFrame(v.phys, q).value && KFrame(v.phys, q).value != v.cr3
            && CreatPDE(L, vm) == Got(q, v.(phys := NewDirectory(v.phys, v.cr3, KFrame(v.phys, q).value),
                                            dirs := v.dirs + [q], ubits := v.ubits + [{}]))
    ensures Sound(L, CreatPDE(L, vm).vm)
  {
    hide CoreOk, BitsOk, MapsRun, Unmapped, Palloc, TablesOk, NewDirectory, VirtualAddrToPhysicAddr;
    var o: Owners :| VmOk(L, vm, o);
    var o1 := PallocOk(L, vm, o, true, 1);
    var q, v := Palloc(L, vm, true, 1).page, Palloc(L, vm, true, 1).vm;
    CoreHasTables(L, vm, o);
    FreshDirectory(L, vm, v, o1, q);
    KernelFrameOf(L, v, o1, q);
    var o2 := CreatPDEOk(L, vm, o);
    assert VmOk(L, CreatPDE(L, vm).vm, o2);
  }

  lemma KernelFrameOf(L: Layout, vm: Vm, o: Owners, q: nat)
    requires CoreOk(L, vm, o) && KernelPage(q) && KFrame(vm.phys, q).Some?
    ensures KERNEL_FIRST <= KFrame(vm.phys, q).value
  {
    assert OwnerOk(L, vm.phys, vm.dirs, KFrame(vm.phys, q).value, KPage(q));
  }

  // A mapped heap page without its bit contradicts the bitmap invariant.
  lemma MappedIsUnsound(L: Layout, vm: Vm)
    requires vm.kbits == {} && exists q: nat :: KernelPage(q) && KFrame(vm.phys, q) != None
    ensures !Sound(L, vm)
  {
    var q: nat :| KernelPage(q) && KFrame(vm.phys, q) != None;
    assert KFrame(vm.phys, q).Some? && q - HEAP_BASE !in vm.kbits;
    assert !BitsOk(L, vm);
  }

  // From directory dir, kernel page q leads to frame d, another directory in the making.
  ghost predicate Reaches(m: Memory, dir: nat, q: nat, d: nat)
  {
    KernelPage(q) && KernelPart(m, dir) && KFrame(m, q) == Some(d) && KERNEL_FIRST <= d && d != dir
  }

  lemma CopiedReads(m: Memory, src: nat, d: nat, first: nat, n: nat, i: nat)
    requires src != d && first + n <= DIRECTORY && i < DIRECTORY
    ensures DirEntry(Copied(m, src, d, first, n), src, i) == DirEntry(m, src, i)
  {
    assert !(d * DIRECTORY + first <= src * DIRECTORY + i < d * DIRECTORY + first + n);
  }

  lemma StoreReaches(m: Memory, dir: nat, q: nat, d: nat, i: nat, w: nat)
    requires Reaches(m, dir, q, d) && i < DIRECTORY
    ensures Reaches(m[d * DIRECTORY + i := w], dir, q, d)
  {
    DirectoryReach(m, m[d * DIRECTORY + i := w], dir, q, d);
  }

  // Filling the new directory disturbs neither the current directory nor the way to the new one.
  lemma DirectoryReach(m: Memory, m': Memory, dir: nat, q: nat, d: nat)
    requires Reaches(m, dir, q, d)
    requires forall a: nat | !(d * DIRECTORY <= a < (d + 1) * DIRECTORY) :: Load(m', a) == Load(m, a)
    ensures Reaches(m', dir, q, d)
  {
    assert SameFrame(m, m', dir);
    SameKernelPart(m, m', dir);
  }

  lemma EntryAccess(m: Memory, dir: nat, q: nat, d: nat, i: nat, w: nat)
    requires i < DIRECTORY && Reaches(m, dir, q, d)
    ensures VLoad(m, dir, 0xFFFFF000 + 4 * i) == Some(DirEntry(m, dir, i))
    ensures VStore(m, dir, q * 4096 + 4 * i, w) == Some(m[d * DIRECTORY + i := w])
  {
    EntryParts(dir);
    assert DirEntry(m, dir, WINDOW) == Entry(dir, BOOT_FLAGS);
    KernelAgrees(m, dir, q);
    PdePointerWalk(m, dir, i * 0x400000);
    assert GetPDEPointer(i * 0x400000) == 0xFFFFF000 + 4 * i;
    WalkIsFrameAt(m, dir, q, 4 * i);
    assert (d * 4096 + 4 * i) / 4 == d * DIRECTORY + i;
  }
}
