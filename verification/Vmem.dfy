// palloc, pfree, address-space creation and switching as atomic operations on the pools, the
// virtual bitmaps and the page tables (source/kernel/memory.c:36-76, 165-188, 242-307;
// source/userprog/process.c:39-60 and 96-106).
module Vmem {
  import opened Basics
  import opened BitSets
  import opened Frames
  import opened Paging
  import opened Spaces

  const USER_BASE := 0x8048        // page of USER_VADDR_START
  const USER_BITS := 753592        // 8 * (0xC0000000 - USER_VADDR_START) / PAGE_SIZE / 8
  const PAGE_LIMIT := 3840         // memory.c:244
  const LOWEST_FREED := 0x102      // memory.c:277

  // kbits, ubits: the virtual bitmaps, as indices from HEAP_BASE and USER_BASE; guard: the bit just
  // past the kernel bitmap reads as set without standing for a page; dirs: the kernel page of each
  // process's directory; current: the process whose directory is loaded.
  datatype Vm = Vm(phys: Memory, cr3: nat, pools: Pools, kbits: set<nat>, guard: bool,
                   dirs: seq<nat>, ubits: seq<set<nat>>, current: Option<nat>)

  // Stuck: an ASSERT fails and the kernel spins. Trap: a page fault inside the kernel.
  datatype Out = Go(vm: Vm) | Stuck | Trap

  // memory.c:256-263 for one page: a frame from the pool, then PageMapping, which may take a frame
  // for a page table from the kernel pool.
  function MapOne(L: Layout, vm: Vm, kernel: bool, q: nat): (r: Out)
    ensures r.Go? ==> r.vm == vm.(phys := r.vm.phys, pools := r.vm.pools)
  {
    match GetFrame(L, vm.pools, kernel)
    case None => Stuck
    case Some((f, pools)) =>
      var table := GetFrame(L, pools, true);
      match PageMapping(vm.phys, vm.cr3, q * 4096, f, if table.Some? then Some(table.value.0) else None)
      case Done(m) => Go(vm.(phys := m, pools := if NeedsTable(vm.phys, vm.cr3, q * 4096) && table.Some? then table.value.1 else pools))
      case Halted => Stuck
      case Fault => Trap
  }

  function MapRun(L: Layout, vm: Vm, kernel: bool, q: nat, n: nat): (r: Out)
    ensures r.Go? ==> r.vm == vm.(phys := r.vm.phys, pools := r.vm.pools)
    decreases n
  {
    if n == 0 then Go(vm)
    else match MapOne(L, vm, kernel, q)
      case Go(vm1) => MapRun(L, vm1, kernel, q + 1, n - 1)
      case out => out
  }

  // A kernel request, or one by the current process.
  predicate MayAsk(vm: Vm, kernel: bool)
  {
    kernel || (vm.current.Some? && vm.current.value < |vm.ubits|)
  }

  function Bits(L: Layout, vm: Vm, kernel: bool): set<nat>
    requires MayAsk(vm, kernel)
  {
    if kernel then vm.kbits + (if vm.guard then {8 * L.KernelBytes()} else {}) else vm.ubits[vm.current.value]
  }

  function BitCount(L: Layout, kernel: bool): nat { if kernel then 8 * L.KernelBytes() else USER_BITS }
  function Base(kernel: bool): nat { if kernel then HEAP_BASE else USER_BASE }

  function WithBits(vm: Vm, kernel: bool, add: set<nat>, remove: set<nat>): Vm
    requires MayAsk(vm, kernel)
  {
    if kernel then vm.(kbits := (vm.kbits + add) - remove)
    else vm.(ubits := vm.ubits[vm.current.value := (vm.ubits[vm.current.value] + add) - remove])
  }

  // Null: NULL is returned. Got: the pages from `page` on are mapped.
  datatype Alloc = Got(page: nat, vm: Vm) | Null | NoReturn | KernelFault

  // memory.c:242-268 with memory.c:36-76. GetOnePhysicPage halts rather than return NULL, so the
  // rollback of line 260 is never entered.
  function Palloc(L: Layout, vm: Vm, kernel: bool, cnt: nat): Alloc
    requires MayAsk(vm, kernel)
  {
    if cnt >= PAGE_LIMIT then NoReturn
    else match Scan(Bits(L, vm, kernel), BitCount(L, kernel), cnt)
      case Halted => NoReturn
      case NotFound => Null
      case Found(s) =>
        match MapRun(L, WithBits(vm, kernel, Interval(s, cnt), {}), kernel, Base(kernel) + s, cnt)
        case Go(vm') => Got(Base(kernel) + s, vm')
        case Stuck => NoReturn
        case Trap => KernelFault
  }

  // memory.c:284-290 for one page; `user` is the branch taken at line 279. Returning a frame that
  // neither bitmap names, which no managed page has, would write outside the pools: a Trap.
  function FreeOne(L: Layout, vm: Vm, user: bool, q: nat): (r: Out)
    ensures r.Go? ==> r.vm == vm.(phys := r.vm.phys, pools := r.vm.pools)
  {
    match VirtualAddrToPhysicAddr(vm.phys, vm.cr3, q * 4096)
    case None => Trap
    case Some(a) =>
      var f := a / 4096;
      if user != (f >= L.UserFirst()) then Stuck
      else if !L.KernelFrame(f) && !L.UserFrame(f) then Trap
      else
        match PageUnmapping(vm.phys, vm.cr3, q * 4096)
        case Done(m) => Go(vm.(phys := m, pools := PutFrame(L, vm.pools, f)))
        case Halted => Stuck
        case Fault => Trap
  }

  function FreeRun(L: Layout, vm: Vm, user: bool, q: nat, n: nat): (r: Out)
    ensures r.Go? ==> r.vm == vm.(phys := r.vm.phys, pools := r.vm.pools)
    decreases n
  {
    if n == 0 then Go(vm)
    else match FreeOne(L, vm, user, q)
      case Go(vm1) => FreeRun(L, vm1, user, q + 1, n - 1)
      case out => out
  }

  // memory.c:270-307 with memory.c:165-188
  function Pfree(L: Layout, vm: Vm, kernel: bool, q: nat, n: nat): Out
    requires MayAsk(vm, kernel) && Base(kernel) <= q
  {
    if n == 0 then Stuck
    else match VirtualAddrToPhysicAddr(vm.phys, vm.cr3, q * 4096)
      case None => Trap
      case Some(a) =>
        if a <= LOWEST_FREED * 4096 then Stuck
        else match FreeRun(L, vm, a / 4096 >= L.UserFirst(), q, n)
          case Go(vm') => Go(WithBits(vm', kernel, {}, Interval(q - Base(kernel), n)))
          case out => out
  }

  // process.c:39-60 with kpalloc(1)
  function CreatPDE(L: Layout, vm: Vm): Alloc
  {
    match Palloc(L, vm, true, 1)
    case Got(q, v) =>
      (match VirtualAddrToPhysicAddr(v.phys, v.cr3, q * 4096)
       case None => KernelFault
       case Some(a) =>
         var d := a / 4096;
         if d == v.cr3 then KernelFault
         else Got(q, v.(phys := NewDirectory(v.phys, v.cr3, d), dirs := v.dirs + [q], ubits := v.ubits + [{}])))
    case out => out
  }

  const BITMAP_PAGES := 23         // DIV_ROUND_UP(USER_BITS / 8, PAGE_SIZE)

  // process.c:80-85: pages for the new process's virtual bitmap, then its directory; NULL for either
  // fails an ASSERT (lines 68 and 84).
  function NewSpace(L: Layout, vm: Vm): Alloc
  {
    match Palloc(L, vm, true, BITMAP_PAGES)
    case Got(_, v) => (match CreatPDE(L, v) case Null => NoReturn case out => out)
    case Null => NoReturn
    case out => out
  }

  // process.c:96-106
  function ActivePDE(vm: Vm, to: Option<nat>): Out
    requires to.Some? ==> to.value < |vm.dirs|
  {
    match to
    case None => Go(vm.(cr3 := BOOT, current := None))
    case Some(p) =>
      match VirtualAddrToPhysicAddr(vm.phys, vm.cr3, vm.dirs[p] * 4096)
      case None => Trap
      case Some(a) => Go(vm.(cr3 := a / 4096, current := to))
  }

  // ----- invariants

  ghost predicate CurrentOk(vm: Vm)
  {
    match vm.current
    case None => vm.cr3 == BOOT
    case Some(p) => p < |vm.dirs| && vm.cr3 == Dir(vm.phys, vm.dirs[p])
  }

  // Each pool's set bits are its frames in use: those backing managed pages and those used as
  // page tables.
  ghost predicate PoolsOk(L: Layout, vm: Vm, o: Owners)
  {
    vm.pools.In(L) && forall f: nat :: vm.pools.Marked(L, f) <==> f in o
  }

  // The page tables alone, whatever the pools say.
  ghost predicate TreeOk(L: Layout, vm: Vm, o: Owners)
  {
    TablesOk(L, vm.phys, vm.dirs, o) && CurrentOk(vm) && |vm.ubits| == |vm.dirs|
  }

  ghost predicate CoreOk(L: Layout, vm: Vm, o: Owners)
  {
    TreeOk(L, vm, o) && PoolsOk(L, vm, o)
  }

  // The virtual bitmaps mark exactly the mapped pages.
  ghost predicate BitsOk(L: Layout, vm: Vm)
  {
    && |vm.ubits| == |vm.dirs|
    && (forall i | i in vm.kbits :: i <= 8 * L.KernelBytes())
    && (vm.guard ==> 8 * L.KernelBytes() !in vm.kbits)
    && (forall q: nat | KernelPage(q) :: KFrame(vm.phys, q).Some? <==> q - HEAP_BASE in vm.kbits)
    && (forall p: nat, i: nat | p < |vm.dirs| && i in vm.ubits[p] :: i < USER_BITS)
    && (forall p: nat, q: nat | p < |vm.dirs| && UserPage(q) ::
          FrameAt(vm.phys, Dir(vm.phys, vm.dirs[p]), q).Some? <==> USER_BASE <= q && q - USER_BASE in vm.ubits[p])
  }

  // The kernel's virtual bitmap ends below the self-map window.
  predicate LayoutOk(L: Layout)
  {
    HEAP_BASE + 8 * L.KernelBytes() < KERNEL_TOP
  }

  ghost predicate VmOk(L: Layout, vm: Vm, o: Owners)
  {
    LayoutOk(L) && CoreOk(L, vm, o) && BitsOk(L, vm)
  }

  // Memory sizes whose bitmaps fit below the main thread's PCB satisfy the layout condition.
  lemma LayoutFits(allMem: nat)
    requires KERNEL_FIRST * PAGE_SIZE <= allMem < KERNEL_FIRST * PAGE_SIZE + 87392 * PAGE_SIZE
    ensures LayoutOk(LayoutOf(allMem))
  {
  }

  // ----- the current directory

  lemma CurrentHasKernel(L: Layout, vm: Vm, o: Owners)
    requires TreeOk(L, vm, o)
    ensures KernelPart(vm.phys, vm.cr3) && SelfMapped(vm.phys, vm.cr3)
    ensures vm.cr3 == BOOT || (vm.cr3 in o && L.KernelFrame(vm.cr3))
  {
    if vm.current.Some? { DirIsOwned(L, vm.phys, vm.dirs, o, vm.current.value); }
    assert DirEntry(vm.phys, vm.cr3, WINDOW) == Entry(vm.cr3, BOOT_FLAGS);
    EntryParts(vm.cr3);
  }

  // ----- one page mapped

  // m' maps x as well, and every other managed page as m does.
  ghost predicate Maps(m: Memory, m': Memory, dirs: seq<nat>, x: Place)
  {
    && Managed(dirs, x) && Backing(m', dirs, x).Some?
    && (forall p: nat | p < |dirs| :: Dir(m', dirs[p]) == Dir(m, dirs[p]))
    && forall y: Place | Managed(dirs, y) && y != x :: Backing(m', dirs, y) == Backing(m, dirs, y)
  }

  // The frame GetOnePhysicPage hands out is in nobody's use.
  lemma TakenFrame(L: Layout, p: Pools, o: Owners, fromKernel: bool)
    requires p.In(L) && (forall f: nat :: p.Marked(L, f) <==> f in o) && GetFrame(L, p, fromKernel).Some?
    ensures var (f, q) := GetFrame(L, p, fromKernel).value;
            && f !in o && q.In(L) && (if fromKernel then L.KernelFrame(f) else L.UserFrame(f))
            && forall g: nat :: q.Marked(L, g) <==> g == f || g in o
  {
    GetFrameMarks(L, p, fromKernel);
  }

  // For a kernel page the table is always there.
  lemma MapOneKernel(L: Layout, vm: Vm, o: Owners, q: nat)
    requires CoreOk(L, vm, o) && KernelPage(q) && KFrame(vm.phys, q) == None
    ensures MapOne(L, vm, true, q) ==
            match GetFrame(L, vm.pools, true)
            case None => Stuck
            case Some((f, pools)) => Go(vm.(phys := vm.phys[KWord(q) := Entry(f, C_FLAGS)], pools := pools))
  {
    CurrentHasKernel(L, vm, o);
    KernelAgrees(vm.phys, vm.cr3, q);
    NeedsTableIs(vm.phys, vm.cr3, q);
    if GetFrame(L, vm.pools, true).Some? {
      var (f, pools) := GetFrame(L, vm.pools, true).value;
      PageMappingIs(vm.phys, vm.cr3, q, f, None);
      var table := GetFrame(L, pools, true);
      PageMappingTableUnused(vm.phys, vm.cr3, q, f, if table.Some? then Some(table.value.0) else None);
    }
  }

  lemma MapKernelPage(L: Layout, vm: Vm, o: Owners, q: nat) returns (o': Owners)
    requires CoreOk(L, vm, o) && KernelPage(q) && KFrame(vm.phys, q) == None
    ensures !MapOne(L, vm, true, q).Trap?
    ensures MapOne(L, vm, true, q).Go? ==>
              var vm' := MapOne(L, vm, true, q).vm;
              CoreOk(L, vm', o') && Maps(vm.phys, vm'.phys, vm.dirs, Kernel(q))
  {
    o' := o;
    MapOneKernel(L, vm, o, q);
    if GetFrame(L, vm.pools, true).Some? {
      TakenFrame(L, vm.pools, o, true);
      var (f, pools) := GetFrame(L, vm.pools, true).value;
      o' := o[f := KPage(q)];
      MapKernelOk(L, vm.phys, vm.dirs, o, q, f);
      KernelMaps(L, vm.phys, vm.dirs, o, q, f);
      var vm' := MapOne(L, vm, true, q).vm;
      assert PoolsOk(L, vm', o');
      assert CurrentOk(vm');
    }
  }

  lemma KernelMaps(L: Layout, m: Memory, dirs: seq<nat>, o: Owners, q: nat, f: nat)
    requires TablesOk(L, m, dirs, o) && KernelPage(q) && KFrame(m, q) == None
    ensures Maps(m, m[KWord(q) := Entry(f, C_FLAGS)], dirs, Kernel(q))
  {
    KernelTableWrite(L, m, dirs, o, q, Entry(f, C_FLAGS));
    EntryParts(f);
  }

  // ----- a page of the current process

  lemma UserMaps(L: Layout, m: Memory, dirs: seq<nat>, o: Owners, p: nat, q: nat, f: nat)
    requires TablesOk(L, m, dirs, o) && p < |dirs| && UserPage(q) && HasTable(m, Dir(m, dirs[p]), q)
    ensures Maps(m, SetPte(m, Dir(m, dirs[p]), q, Entry(f, C_FLAGS)), dirs, User(p, q))
  {
    UserTableWrite(L, m, dirs, o, p, q, Entry(f, C_FLAGS));
    EntryParts(f);
  }

  // With the page table there.
  lemma MapOneHere(L: Layout, vm: Vm, o: Owners, q: nat)
    requires TreeOk(L, vm, o) && vm.current.Some? && UserPage(q)
    requires HasTable(vm.phys, vm.cr3, q) && FrameAt(vm.phys, vm.cr3, q) == None
    ensures MapOne(L, vm, false, q) ==
            match GetFrame(L, vm.pools, false)
            case None => Stuck
            case Some((f, pools)) => Go(vm.(phys := SetPte(vm.phys, vm.cr3, q, Entry(f, C_FLAGS)), pools := pools))
  {
    CurrentHasKernel(L, vm, o);
    NeedsTableIs(vm.phys, vm.cr3, q);
    if GetFrame(L, vm.pools, false).Some? {
      var (f, pools) := GetFrame(L, vm.pools, false).value;
      PageMappingIs(vm.phys, vm.cr3, q, f, None);
      var table := GetFrame(L, pools, true);
      PageMappingTableUnused(vm.phys, vm.cr3, q, f, if table.Some? then Some(table.value.0) else None);
    }
  }

  lemma MapUserHere(L: Layout, vm: Vm, o: Owners, q: nat) returns (o': Owners)
    requires CoreOk(L, vm, o) && vm.current.Some? && UserPage(q)
    requires HasTable(vm.phys, vm.cr3, q) && FrameAt(vm.phys, vm.cr3, q) == None
    ensures !MapOne(L, vm, false, q).Trap?
    ensures MapOne(L, vm, false, q).Go? ==>
              var vm' := MapOne(L, vm, false, q).vm;
              CoreOk(L, vm', o') && Maps(vm.phys, vm'.phys, vm.dirs, User(vm.current.value, q))
  {
    o' := o;
    var p := vm.current.value;
    MapOneHere(L, vm, o, q);
    if GetFrame(L, vm.pools, false).Some? {
      var (f, pools) := GetFrame(L, vm.pools, false).value;
      TakenFrame(L, vm.pools, o, false);
      o' := o[f := UPage(p, q)];
      MapUserOk(L, vm.phys, vm.dirs, o, p, q, f);
      UserMaps(L, vm.phys, vm.dirs, o, p, q, f);
      var vm' := MapOne(L, vm, false, q).vm;
      assert PoolsOk(L, vm', o');
      assert CurrentOk(vm');
    }
  }

  // Without it: a kernel frame becomes the table first.
  lemma MapOneNewTable(L: Layout, vm: Vm, o: Owners, q: nat)
    requires CoreOk(L, vm, o) && vm.current.Some? && UserPage(q) && !HasTable(vm.phys, vm.cr3, q)
    ensures MapOne(L, vm, false, q) ==
            match GetFrame(L, vm.pools, false)
            case None => Stuck
            case Some((f, pools)) =>
              match GetFrame(L, pools, true)
              case None => Stuck
              case Some((t, pools2)) =>
                Go(vm.(phys := SetPte(AddTable(vm.phys, vm.cr3, q, t), vm.cr3, q, Entry(f, C_FLAGS)), pools := pools2))
    ensures GetFrame(L, vm.pools, false).Some? ==>
              var (f, pools) := GetFrame(L, vm.pools, false).value;
              && f !in o && L.UserFrame(f)
              && (GetFrame(L, pools, true).Some? ==>
                    var (t, pools2) := GetFrame(L, pools, true).value;
                    && t !in o && t != f && L.KernelFrame(t) && pools2.In(L)
                    && forall g: nat :: pools2.Marked(L, g) <==> g == t || g == f || g in o)
  {
    CurrentHasKernel(L, vm, o);
    NeedsTableIs(vm.phys, vm.cr3, q);
    if GetFrame(L, vm.pools, false).Some? {
      TakenFrame(L, vm.pools, o, false);
      var (f, pools) := GetFrame(L, vm.pools, false).value;
      var table := GetFrame(L, pools, true);
      if table.Some? { GetFrameMarks(L, pools, true); }
      PageMappingIs(vm.phys, vm.cr3, q, f, if table.Some? then Some(table.value.0) else None);
    }
  }

  lemma MapUserNewTable(L: Layout, vm: Vm, o: Owners, q: nat) returns (o': Owners)
    requires CoreOk(L, vm, o) && vm.current.Some? && UserPage(q) && !HasTable(vm.phys, vm.cr3, q)
    ensures !MapOne(L, vm, false, q).Trap?
    ensures MapOne(L, vm, false, q).Go? ==>
              var vm' := MapOne(L, vm, false, q).vm;
              CoreOk(L, vm', o') && Maps(vm.phys, vm'.phys, vm.dirs, User(vm.current.value, q))
  {
    o' := o;
    var p := vm.current.value;
    MapOneNewTable(L, vm, o, q);
    if MapOne(L, vm, false, q).Go? {
      var (f, pools) := GetFrame(L, vm.pools, false).value;
      var (t, pools2) := GetFrame(L, pools, true).value;
      var m1, o1 := AddTable(vm.phys, vm.cr3, q, t), o[t := Table(p, q / 1024)];
      AddTableOk(L, vm.phys, vm.dirs, o, p, q, t);
      assert FrameAt(vm.phys, vm.cr3, q) == None;
      assert Dir(m1, vm.dirs[p]) == vm.cr3;
      MapUserOk(L, m1, vm.dirs, o1, p, q, f);
      UserMaps(L, m1, vm.dirs, o1, p, q, f);
      o' := o1[f := UPage(p, q)];
      MapsAfterTable(vm.phys, m1, SetPte(m1, vm.cr3, q, Entry(f, C_FLAGS)), vm.dirs, p, q);
      var vm' := MapOne(L, vm, false, q).vm;
      assert PoolsOk(L, vm', o');
      assert CurrentOk(vm');
    }
  }

  lemma MapsAfterTable(m: Memory, m1: Memory, m2: Memory, dirs: seq<nat>, p: nat, q: nat)
    requires p < |dirs| && OnlyUserEntry(m, m1, dirs, p, q / 1024)
    requires forall u: nat | UserPage(u) :: FrameAt(m1, Dir(m, dirs[p]), u) == FrameAt(m, Dir(m, dirs[p]), u)
    requires Maps(m1, m2, dirs, User(p, q))
    ensures Maps(m, m2, dirs, User(p, q))
  {
    forall y: Place | Managed(dirs, y) && y != User(p, q) ensures Backing(m2, dirs, y) == Backing(m, dirs, y) {
      assert Backing(m2, dirs, y) == Backing(m1, dirs, y);
    }
  }

  // A process that runs into the kernel's first page stops at the ASSERT of memory.c:135.
  lemma MapIntoKernel(L: Layout, vm: Vm, o: Owners)
    requires CoreOk(L, vm, o)
    ensures MapOne(L, vm, false, KERNEL_BASE).Stuck?
  {
    CurrentHasKernel(L, vm, o);
    KernelAgrees(vm.phys, vm.cr3, KERNEL_BASE);
    assert KFrame(vm.phys, KERNEL_BASE) == Some(0);
    if GetFrame(L, vm.pools, false).Some? {
      var (f, pools) := GetFrame(L, vm.pools, false).value;
      PageMappingIs(vm.phys, vm.cr3, KERNEL_BASE, f, None);
      var table := GetFrame(L, pools, true);
      PageMappingTableUnused(vm.phys, vm.cr3, KERNEL_BASE, f, if table.Some? then Some(table.value.0) else None);
    }
  }

  // ----- runs of pages

  // The pages from q on, n of them, of the kernel or of process c.
  predicate InRun(kernel: bool, c: nat, q: nat, n: nat, y: Place)
  {
    match y case Kernel(u) => kernel && q <= u < q + n case User(p, u) => !kernel && p == c && q <= u < q + n
  }

  function Who(vm: Vm): nat { if vm.current.Some? then vm.current.value else 0 }

  ghost predicate Unmapped(m: Memory, dirs: seq<nat>, kernel: bool, c: nat, q: nat, n: nat)
  {
    forall y: Place | Managed(dirs, y) && InRun(kernel, c, q, n, y) :: Backing(m, dirs, y) == None
  }

  // m' maps the run as well, and every other managed page as m does.
  ghost predicate MapsRun(m: Memory, m': Memory, dirs: seq<nat>, kernel: bool, c: nat, q: nat, n: nat)
  {
    && (forall p: nat | p < |dirs| :: Dir(m', dirs[p]) == Dir(m, dirs[p]))
    && forall y: Place | Managed(dirs, y) ::
         if InRun(kernel, c, q, n, y) then Backing(m', dirs, y).Some? else Backing(m', dirs, y) == Backing(m, dirs, y)
  }

  // Where a scan can put a run: for a process, one page of it may lie past the end of user space.
  predicate RunFits(kernel: bool, q: nat, n: nat)
  {
    if kernel then HEAP_BASE <= q && q + n <= KERNEL_TOP else USER_BASE <= q && q + n <= KERNEL_BASE + 1
  }

  lemma MapOneOk(L: Layout, vm: Vm, o: Owners, kernel: bool, q: nat) returns (o': Owners)
    requires CoreOk(L, vm, o) && (kernel || vm.current.Some?) && RunFits(kernel, q, 1)
    requires Unmapped(vm.phys, vm.dirs, kernel, Who(vm), q, 1)
    ensures !MapOne(L, vm, kernel, q).Trap?
    ensures MapOne(L, vm, kernel, q).Go? ==>
              var vm' := MapOne(L, vm, kernel, q).vm;
              var x := if kernel then Kernel(q) else User(Who(vm), q);
              CoreOk(L, vm', o') && Managed(vm.dirs, x) && Maps(vm.phys, vm'.phys, vm.dirs, x)
  {
    o' := o;
    if kernel {
      assert Backing(vm.phys, vm.dirs, Kernel(q)) == None;
      o' := MapKernelPage(L, vm, o, q);
    } else if q == KERNEL_BASE {
      MapIntoKernel(L, vm, o);
    } else {
      assert Backing(vm.phys, vm.dirs, User(Who(vm), q)) == None;
      if HasTable(vm.phys, vm.cr3, q) {
        o' := MapUserHere(L, vm, o, q);
      } else {
        o' := MapUserNewTable(L, vm, o, q);
      }
    }
  }

  lemma MapsStep(m: Memory, m1: Memory, m2: Memory, dirs: seq<nat>, kernel: bool, c: nat, q: nat, n: nat)
    requires 1 <= n && Maps(m, m1, dirs, if kernel then Kernel(q) else User(c, q)) && MapsRun(m1, m2, dirs, kernel, c, q + 1, n - 1)
    ensures MapsRun(m, m2, dirs, kernel, c, q, n)
  {
  }

  lemma NothingMapped(m: Memory, dirs: seq<nat>, kernel: bool, c: nat, q: nat)
    ensures MapsRun(m, m, dirs, kernel, c, q, 0) && Unmapped(m, dirs, kernel, c, q, 0)
  {
  }

  lemma UnmappedFirst(m: Memory, dirs: seq<nat>, kernel: bool, c: nat, q: nat, n: nat)
    requires 1 <= n && Unmapped(m, dirs, kernel, c, q, n)
    ensures Unmapped(m, dirs, kernel, c, q, 1)
  {
  }

  lemma UnmappedStep(m: Memory, m1: Memory, dirs: seq<nat>, kernel: bool, c: nat, q: nat, n: nat)
    requires 1 <= n && Unmapped(m, dirs, kernel, c, q, n) && Maps(m, m1, dirs, if kernel then Kernel(q) else User(c, q))
    ensures Unmapped(m1, dirs, kernel, c, q + 1, n - 1)
  {
    forall y: Place | Managed(dirs, y) && InRun(kernel, c, q + 1, n - 1, y) ensures Backing(m1, dirs, y) == None {
      assert InRun(kernel, c, q, n, y);
    }
  }

  // The mapping loop of palloc: no page fault, and if it comes through, exactly the run is mapped.
  lemma {:induction false} MapRunOk(L: Layout, vm: Vm, o: Owners, kernel: bool, q: nat, n: nat) returns (o': Owners)
    requires CoreOk(L, vm, o) && (kernel || vm.current.Some?) && RunFits(kernel, q, n)
    requires Unmapped(vm.phys, vm.dirs, kernel, Who(vm), q, n)
    ensures !MapRun(L, vm, kernel, q, n).Trap?
    ensures MapRun(L, vm, kernel, q, n).Go? ==>
              var vm' := MapRun(L, vm, kernel, q, n).vm;
              && CoreOk(L, vm', o') && MapsRun(vm.phys, vm'.phys, vm.dirs, kernel, Who(vm), q, n)
              && (!kernel && n > 0 ==> q + n <= KERNEL_BASE)
    decreases n
  {
    hide CoreOk, Maps, MapsRun, Unmapped, MapOne;
    o' := o;
    NothingMapped(vm.phys, vm.dirs, kernel, Who(vm), q);
    if n > 0 {
      UnmappedFirst(vm.phys, vm.dirs, kernel, Who(vm), q, n);
      var o1 := MapOneOk(L, vm, o, kernel, q);
      if MapOne(L, vm, kernel, q).Go? {
        var vm1 := MapOne(L, vm, kernel, q).vm;
        UnmappedStep(vm.phys, vm1.phys, vm.dirs, kernel, Who(vm), q, n);
        o' := MapRunOk(L, vm1, o1, kernel, q + 1, n - 1);
        if MapRun(L, vm1, kernel, q + 1, n - 1).Go? {
          MapsStep(vm.phys, vm1.phys, MapRun(L, vm1, kernel, q + 1, n - 1).vm.phys, vm.dirs, kernel, Who(vm), q, n);
        }
      }
    }
  }

  // ----- palloc

  // Clear bits stand for unmapped pages.
  lemma ClearIsUnmapped(L: Layout, vm: Vm, kernel: bool, s: nat, n: nat)
    requires BitsOk(L, vm) && (kernel || vm.current.Some?) && MayAsk(vm, kernel) && RunClear(Bits(L, vm, kernel), s, n)
    ensures Unmapped(vm.phys, vm.dirs, kernel, Who(vm), Base(kernel) + s, n)
  {
    forall y: Place | Managed(vm.dirs, y) && InRun(kernel, Who(vm), Base(kernel) + s, n, y)
      ensures Backing(vm.phys, vm.dirs, y) == None
    {
      var i := y.q - Base(kernel);
      assert s <= i < s + n && i !in Bits(L, vm, kernel);
    }
  }

  // Bits set for a run and the run mapped: the bitmaps agree with the tables again.
  lemma BitsAfterMap(L: Layout, vm: Vm, vm': Vm, kernel: bool, s: nat, n: nat)
    requires LayoutOk(L) && BitsOk(L, vm) && MayAsk(vm, kernel) && (kernel || Who(vm) < |vm.dirs|)
    requires RunClear(Bits(L, vm, kernel), s, n) && s + n <= BitCount(L, kernel) + 1
    requires !kernel && n > 0 ==> s + n <= USER_BITS
    requires MapsRun(vm.phys, vm'.phys, vm.dirs, kernel, Who(vm), Base(kernel) + s, n)
    requires vm'.dirs == vm.dirs && vm'.guard == vm.guard
    requires var w := WithBits(vm, kernel, Interval(s, n), {}); vm'.kbits == w.kbits && vm'.ubits == w.ubits
    ensures BitsOk(L, vm')
  {
    assert vm.guard && kernel && n > 0 ==> 8 * L.KernelBytes() in Bits(L, vm, kernel);
    forall q: nat | KernelPage(q) ensures KFrame(vm'.phys, q).Some? <==> q - HEAP_BASE in vm'.kbits {
      assert Managed(vm.dirs, Kernel(q));
      assert Backing(vm'.phys, vm.dirs, Kernel(q)) == KFrame(vm'.phys, q);
    }
    forall p: nat, q: nat | p < |vm.dirs| && UserPage(q)
      ensures FrameAt(vm'.phys, Dir(vm'.phys, vm.dirs[p]), q).Some? <==> USER_BASE <= q && q - USER_BASE in vm'.ubits[p]
    {
      assert Managed(vm.dirs, User(p, q));
      assert Backing(vm'.phys, vm.dirs, User(p, q)) == FrameAt(vm'.phys, Dir(vm'.phys, vm.dirs[p]), q);
    }
  }

  // Every palloc, by the kernel or by any process: no page fault; if it returns pages, they were
  // unmapped, they are mapped now, and nothing else changed.
  lemma PallocOk(L: Layout, vm: Vm, o: Owners, kernel: bool, cnt: nat) returns (o': Owners)
    requires VmOk(L, vm, o) && MayAsk(vm, kernel)
    ensures !Palloc(L, vm, kernel, cnt).KernelFault?
    ensures Palloc(L, vm, kernel, cnt).Got? ==>
              var q, vm' := Palloc(L, vm, kernel, cnt).page, Palloc(L, vm, kernel, cnt).vm;
              && VmOk(L, vm', o') && Base(kernel) <= q
              && Unmapped(vm.phys, vm.dirs, kernel, Who(vm), q, cnt)
              && MapsRun(vm.phys, vm'.phys, vm.dirs, kernel, Who(vm), q, cnt)
              && (cnt > 0 ==> RunFits(kernel, q, cnt) && (!kernel ==> q + cnt <= KERNEL_BASE))
              && vm' == WithBits(vm, kernel, Interval(q - Base(kernel), cnt), {}).(phys := vm'.phys, pools := vm'.pools)
  {
    hide VmOk, MapsRun, Unmapped, MapRun, Scan, WithBits, Bits, RunClear;
    o' := o;
    var r := Scan(Bits(L, vm, kernel), BitCount(L, kernel), cnt);
    if cnt < PAGE_LIMIT && r.Found? {
      if cnt == 0 {
        EmptyRun(L, vm, o, kernel, r.start);
      } else {
        ScanFoundIsClear(Bits(L, vm, kernel), BitCount(L, kernel), cnt);
        o' := PlaceRun(L, vm, o, kernel, r.start, cnt);
      }
    }
  }

  lemma CurrentProcess(L: Layout, vm: Vm, o: Owners)
    requires VmOk(L, vm, o) && MayAsk(vm, false)
    ensures Who(vm) < |vm.dirs|
  {
  }

  // Bits for a clear run, then the mapping loop.
  lemma PlaceRun(L: Layout, vm: Vm, o: Owners, kernel: bool, s: nat, n: nat) returns (o': Owners)
    requires VmOk(L, vm, o) && (kernel || vm.current.Some?) && MayAsk(vm, kernel) && n > 0
    requires RunClear(Bits(L, vm, kernel), s, n) && s + n <= BitCount(L, kernel) + 1
    ensures var r := MapRun(L, WithBits(vm, kernel, Interval(s, n), {}), kernel, Base(kernel) + s, n);
            && !r.Trap? && Unmapped(vm.phys, vm.dirs, kernel, Who(vm), Base(kernel) + s, n) && RunFits(kernel, Base(kernel) + s, n)
            && (r.Go? ==> VmOk(L, r.vm, o') && MapsRun(vm.phys, r.vm.phys, vm.dirs, kernel, Who(vm), Base(kernel) + s, n)
                          && (!kernel ==> s + n <= USER_BITS))
  {
    hide CoreOk, BitsOk, MapsRun, Unmapped, MapRun, Interval, RunClear;
    var w := WithBits(vm, kernel, Interval(s, n), {});
    if !kernel { CurrentProcess(L, vm, o); }
    ClearIsUnmapped(L, vm, kernel, s, n);
    CoreOkBits(L, vm, w, o);
    o' := MapRunOk(L, w, o, kernel, Base(kernel) + s, n);
    if MapRun(L, w, kernel, Base(kernel) + s, n).Go? {
      BitsAfterMap(L, vm, MapRun(L, w, kernel, Base(kernel) + s, n).vm, kernel, s, n);
    }
  }

  // The tables and pools do not depend on the virtual bitmaps.
  lemma CoreOkBits(L: Layout, vm: Vm, w: Vm, o: Owners)
    requires CoreOk(L, vm, o) && w == vm.(kbits := w.kbits, ubits := w.ubits) && |w.ubits| == |vm.ubits|
    ensures CoreOk(L, w, o)
  {
  }

  // A request for no pages changes nothing.
  lemma EmptyRun(L: Layout, vm: Vm, o: Owners, kernel: bool, s: nat)
    requires VmOk(L, vm, o) && MayAsk(vm, kernel)
    ensures WithBits(vm, kernel, Interval(s, 0), {}) == vm
    ensures MapsRun(vm.phys, vm.phys, vm.dirs, kernel, Who(vm), Base(kernel) + s, 0)
    ensures Unmapped(vm.phys, vm.dirs, kernel, Who(vm), Base(kernel) + s, 0)
    ensures MapRun(L, vm, kernel, Base(kernel) + s, 0) == Go(vm)
  {
    assert vm.kbits + Interval(s, 0) - {} == vm.kbits;
    if !kernel {
      var u := vm.ubits[vm.current.value];
      assert u + Interval(s, 0) - {} == u;
      assert vm.ubits[vm.current.value := u] == vm.ubits;
    }
  }

  // ----- pfree

  // m' unmaps x, and maps every other managed page as m does.
  ghost predicate Unmaps(m: Memory, m': Memory, dirs: seq<nat>, x: Place)
  {
    && Managed(dirs, x) && Backing(m', dirs, x) == None
    && (forall p: nat | p < |dirs| :: Dir(m', dirs[p]) == Dir(m, dirs[p]))
    && forall y: Place | Managed(dirs, y) && y != x :: Backing(m', dirs, y) == Backing(m, dirs, y)
  }

  ghost predicate UnmapsRun(m: Memory, m': Memory, dirs: seq<nat>, kernel: bool, c: nat, q: nat, n: nat)
  {
    && (forall p: nat | p < |dirs| :: Dir(m', dirs[p]) == Dir(m, dirs[p]))
    && forall y: Place | Managed(dirs, y) ::
         Backing(m', dirs, y) == if InRun(kernel, c, q, n, y) then None else Backing(m, dirs, y)
  }

  // The pages of the run are mapped and of the right kind, and none is a directory.
  ghost predicate Removable(m: Memory, dirs: seq<nat>, kernel: bool, c: nat, q: nat, n: nat)
  {
    && (if kernel then HEAP_BASE <= q && q + n <= KERNEL_TOP else c < |dirs| && USER_BASE <= q && q + n <= KERNEL_BASE)
    && forall y: Place | Managed(dirs, y) && InRun(kernel, c, q, n, y) ::
         Backing(m, dirs, y).Some? && (y.Kernel? ==> y.q !in dirs)
  }

  // ReturnOnePhysicPage clears each frame of the run at its own bit.
  ghost predicate RunReturnable(L: Layout, m: Memory, dirs: seq<nat>, kernel: bool, c: nat, q: nat, n: nat)
  {
    forall y: Place | Managed(dirs, y) && InRun(kernel, c, q, n, y) && Backing(m, dirs, y).Some? ::
      Returnable(L, Backing(m, dirs, y).value)
  }

  // The run may be freed.
  ghost predicate Freeable(L: Layout, m: Memory, dirs: seq<nat>, kernel: bool, c: nat, q: nat, n: nat)
  {
    Removable(m, dirs, kernel, c, q, n) && RunReturnable(L, m, dirs, kernel, c, q, n)
  }

  lemma PutPools(L: Layout, p: Pools, o: Owners, f: nat)
    requires p.In(L) && (forall g: nat :: p.Marked(L, g) <==> g in o) && (L.KernelFrame(f) || L.UserFrame(f)) && Returnable(L, f)
    ensures PutFrame(L, p, f).In(L) && forall g: nat :: PutFrame(L, p, f).Marked(L, g) <==> g in o - {f}
  {
    PutFrameMarks(L, p, f);
  }

  lemma FreeOneKernel(L: Layout, vm: Vm, o: Owners, q: nat)
    requires TreeOk(L, vm, o) && KernelPage(q) && KFrame(vm.phys, q).Some?
    ensures var f := KFrame(vm.phys, q).value;
            && L.KernelFrame(f)
            && FreeOne(L, vm, false, q) == Go(vm.(phys := vm.phys[KWord(q) := 0], pools := PutFrame(L, vm.pools, f)))
  {
    CurrentHasKernel(L, vm, o);
    KernelAgrees(vm.phys, vm.cr3, q);
    TranslateIs(vm.phys, vm.cr3, q, 0);
    PageUnmappingIs(vm.phys, vm.cr3, q);
    assert OwnerOk(L, vm.phys, vm.dirs, KFrame(vm.phys, q).value, KPage(q));
  }

  lemma FreeKernelPage(L: Layout, vm: Vm, o: Owners, q: nat)
    requires TreeOk(L, vm, o) && KernelPage(q) && q !in vm.dirs && KFrame(vm.phys, q).Some?
    ensures FreeOne(L, vm, false, q).Go?
    ensures var f, vm' := KFrame(vm.phys, q).value, FreeOne(L, vm, false, q).vm;
            && TreeOk(L, vm', o - {f}) && Unmaps(vm.phys, vm'.phys, vm.dirs, Kernel(q))
            && KERNEL_FIRST <= f && vm'.pools == PutFrame(L, vm.pools, f)
  {
    hide FreeOne, TablesOk, PutFrame, FrameAt, SetPte;
    var f := KFrame(vm.phys, q).value;
    FreeOneKernel(L, vm, o, q);
    UnmapKernelOk(L, vm.phys, vm.dirs, o, q, f);
    KernelTableWrite(L, vm.phys, vm.dirs, o, q, 0);
  }

  lemma FreeOneUser(L: Layout, vm: Vm, o: Owners, q: nat)
    requires TreeOk(L, vm, o) && vm.current.Some? && UserPage(q) && FrameAt(vm.phys, vm.cr3, q).Some?
    ensures var f := FrameAt(vm.phys, vm.cr3, q).value;
            && L.UserFrame(f)
            && FreeOne(L, vm, true, q) == Go(vm.(phys := SetPte(vm.phys, vm.cr3, q, 0), pools := PutFrame(L, vm.pools, f)))
  {
    CurrentHasKernel(L, vm, o);
    TranslateIs(vm.phys, vm.cr3, q, 0);
    PageUnmappingIs(vm.phys, vm.cr3, q);
    assert OwnerOk(L, vm.phys, vm.dirs, FrameAt(vm.phys, vm.cr3, q).value, UPage(vm.current.value, q));
  }

  lemma FreeUserPage(L: Layout, vm: Vm, o: Owners, q: nat)
    requires TreeOk(L, vm, o) && vm.current.Some? && UserPage(q) && FrameAt(vm.phys, vm.cr3, q).Some?
    ensures FreeOne(L, vm, true, q).Go?
    ensures var f, vm' := FrameAt(vm.phys, vm.cr3, q).value, FreeOne(L, vm, true, q).vm;
            && TreeOk(L, vm', o - {f}) && Unmaps(vm.phys, vm'.phys, vm.dirs, User(vm.current.value, q))
            && KERNEL_FIRST <= f && vm'.pools == PutFrame(L, vm.pools, f)
  {
    var f, p := FrameAt(vm.phys, vm.cr3, q).value, vm.current.value;
    FreeOneUser(L, vm, o, q);
    hide FreeOne, TablesOk;
    UnmapUserOk(L, vm.phys, vm.dirs, o, p, q, f);
    UserTableWrite(L, vm.phys, vm.dirs, o, p, q, 0);
  }

  // One page freed: the tables stay in order, and the frame goes through PutFrame.
  lemma FreeOneTree(L: Layout, vm: Vm, o: Owners, kernel: bool, q: nat) returns (f: nat)
    requires TreeOk(L, vm, o) && (kernel || vm.current.Some?) && Removable(vm.phys, vm.dirs, kernel, Who(vm), q, 1)
    ensures var x := if kernel then Kernel(q) else User(Who(vm), q);
            && Managed(vm.dirs, x) && Backing(vm.phys, vm.dirs, x) == Some(f) && (L.KernelFrame(f) || L.UserFrame(f))
            && FreeOne(L, vm, !kernel, q).Go?
            && var vm' := FreeOne(L, vm, !kernel, q).vm;
               && TreeOk(L, vm', o - {f}) && Unmaps(vm.phys, vm'.phys, vm.dirs, x)
               && KERNEL_FIRST <= f && vm'.pools == PutFrame(L, vm.pools, f)
  {
    if kernel {
      assert Managed(vm.dirs, Kernel(q)) && Backing(vm.phys, vm.dirs, Kernel(q)) == KFrame(vm.phys, q);
      f := KFrame(vm.phys, q).value;
      FreeOneKernel(L, vm, o, q);
      FreeKernelPage(L, vm, o, q);
    } else {
      assert Managed(vm.dirs, User(Who(vm), q)) && Backing(vm.phys, vm.dirs, User(Who(vm), q)).Some?;
      f := FrameAt(vm.phys, vm.cr3, q).value;
      FreeOneUser(L, vm, o, q);
      FreeUserPage(L, vm, o, q);
    }
  }

  lemma RemovableStep(m: Memory, m1: Memory, dirs: seq<nat>, kernel: bool, c: nat, q: nat, n: nat)
    requires 1 <= n && Removable(m, dirs, kernel, c, q, n)
    ensures Removable(m, dirs, kernel, c, q, 1)
    ensures Unmaps(m, m1, dirs, if kernel then Kernel(q) else User(c, q)) ==> Removable(m1, dirs, kernel, c, q + 1, n - 1)
  {
    forall y: Place | Managed(dirs, y) && InRun(kernel, c, q + 1, n - 1, y) ensures InRun(kernel, c, q, n, y) { }
  }

  lemma ReturnableStep(L: Layout, m: Memory, m1: Memory, dirs: seq<nat>, kernel: bool, c: nat, q: nat, n: nat)
    requires 1 <= n && RunReturnable(L, m, dirs, kernel, c, q, n) && Unmaps(m, m1, dirs, if kernel then Kernel(q) else User(c, q))
    ensures RunReturnable(L, m, dirs, kernel, c, q, 1) && RunReturnable(L, m1, dirs, kernel, c, q + 1, n - 1)
  {
    forall y: Place | Managed(dirs, y) && InRun(kernel, c, q + 1, n - 1, y) ensures InRun(kernel, c, q, n, y) { }
  }

  lemma UnmapsStep(m: Memory, m1: Memory, m2: Memory, dirs: seq<nat>, kernel: bool, c: nat, q: nat, n: nat)
    requires 1 <= n && Unmaps(m, m1, dirs, if kernel then Kernel(q) else User(c, q)) && UnmapsRun(m1, m2, dirs, kernel, c, q + 1, n - 1)
    ensures UnmapsRun(m, m2, dirs, kernel, c, q, n)
  {
  }

  lemma NothingUnmapped(m: Memory, dirs: seq<nat>, kernel: bool, c: nat, q: nat)
    ensures UnmapsRun(m, m, dirs, kernel, c, q, 0)
  {
  }

  // The bit of the first user frame, when no return can clear it.
  predicate StuckBit(L: Layout, p: Pools) { L.kernelPages % 8 != 0 && 0 in p.user }

  lemma StuckBitStays(L: Layout, p: Pools, f: nat)
    requires StuckBit(L, p) && (L.KernelFrame(f) || L.UserFrame(f))
    ensures StuckBit(L, PutFrame(L, p, f))
  {
  }

  // The freeing loop of pfree: the tables stay in order whatever the frames; the pools do if every
  // frame is returnable; and a stuck bit stays.
  lemma {:induction false} FreeRunTree(L: Layout, vm: Vm, o: Owners, kernel: bool, q: nat, n: nat) returns (o': Owners)
    requires TreeOk(L, vm, o) && (kernel || vm.current.Some?) && Removable(vm.phys, vm.dirs, kernel, Who(vm), q, n)
    ensures FreeRun(L, vm, !kernel, q, n).Go?
    ensures var vm' := FreeRun(L, vm, !kernel, q, n).vm;
            && TreeOk(L, vm', o') && UnmapsRun(vm.phys, vm'.phys, vm.dirs, kernel, Who(vm), q, n)
            && (PoolsOk(L, vm, o) && RunReturnable(L, vm.phys, vm.dirs, kernel, Who(vm), q, n) ==> PoolsOk(L, vm', o'))
            && (StuckBit(L, vm.pools) ==> StuckBit(L, vm'.pools))
    decreases n
  {
    hide TreeOk, Unmaps, UnmapsRun, Removable, RunReturnable, FreeOne, StuckBit, PoolsOk;
    o' := o;
    NothingUnmapped(vm.phys, vm.dirs, kernel, Who(vm), q);
    if n > 0 {
      RemovableStep(vm.phys, vm.phys, vm.dirs, kernel, Who(vm), q, n);
      var f := FreeOneTree(L, vm, o, kernel, q);
      var vm1 := FreeOne(L, vm, !kernel, q).vm;
      RemovableStep(vm.phys, vm1.phys, vm.dirs, kernel, Who(vm), q, n);
      o' := FreeRunTree(L, vm1, o - {f}, kernel, q + 1, n - 1);
      UnmapsStep(vm.phys, vm1.phys, FreeRun(L, vm1, !kernel, q + 1, n - 1).vm.phys, vm.dirs, kernel, Who(vm), q, n);
      if StuckBit(L, vm.pools) { StuckBitStays(L, vm.pools, f); }
      if PoolsOk(L, vm, o) && RunReturnable(L, vm.phys, vm.dirs, kernel, Who(vm), q, n) {
        ReturnableStep(L, vm.phys, vm1.phys, vm.dirs, kernel, Who(vm), q, n);
        PoolsAfterFree(L, vm, vm1, o, kernel, q, f);
      }
    }
  }

  lemma PoolsAfterFree(L: Layout, vm: Vm, vm1: Vm, o: Owners, kernel: bool, q: nat, f: nat)
    requires PoolsOk(L, vm, o) && RunReturnable(L, vm.phys, vm.dirs, kernel, Who(vm), q, 1) && KERNEL_FIRST <= f
    requires var x := if kernel then Kernel(q) else User(Who(vm), q);
             Managed(vm.dirs, x) && Backing(vm.phys, vm.dirs, x) == Some(f) && (L.KernelFrame(f) || L.UserFrame(f))
    requires vm1.pools == PutFrame(L, vm.pools, f)
    ensures PoolsOk(L, vm1, o - {f})
  {
    var x := if kernel then Kernel(q) else User(Who(vm), q);
    assert InRun(kernel, Who(vm), q, 1, x);
    assert Returnable(L, f);
    PutPools(L, vm.pools, o, f);
  }

  lemma BitsAfterFree(L: Layout, vm: Vm, vm': Vm, kernel: bool, q: nat, n: nat)
    requires BitsOk(L, vm) && MayAsk(vm, kernel) && Base(kernel) <= q && (kernel || Who(vm) < |vm.dirs|)
    requires UnmapsRun(vm.phys, vm'.phys, vm.dirs, kernel, Who(vm), q, n)
    requires vm'.dirs == vm.dirs && vm'.guard == vm.guard
    requires var w := WithBits(vm, kernel, {}, Interval(q - Base(kernel), n)); vm'.kbits == w.kbits && vm'.ubits == w.ubits
    ensures BitsOk(L, vm')
  {
    forall r: nat | KernelPage(r) ensures KFrame(vm'.phys, r).Some? <==> r - HEAP_BASE in vm'.kbits {
      assert Managed(vm.dirs, Kernel(r));
      assert Backing(vm'.phys, vm.dirs, Kernel(r)) == KFrame(vm'.phys, r);
    }
    forall p: nat, r: nat | p < |vm.dirs| && UserPage(r)
      ensures FrameAt(vm'.phys, Dir(vm'.phys, vm.dirs[p]), r).Some? <==> USER_BASE <= r && r - USER_BASE in vm'.ubits[p]
    {
      assert Managed(vm.dirs, User(p, r));
      assert Backing(vm'.phys, vm.dirs, User(p, r)) == FrameAt(vm'.phys, Dir(vm'.phys, vm.dirs[p]), r);
    }
  }

  // The address of the first page passes the tests of memory.c:277-279.
  lemma FirstPage(L: Layout, vm: Vm, o: Owners, kernel: bool, q: nat, n: nat)
    requires TreeOk(L, vm, o) && (kernel || vm.current.Some?) && 1 <= n && Removable(vm.phys, vm.dirs, kernel, Who(vm), q, n)
    ensures var a := VirtualAddrToPhysicAddr(vm.phys, vm.cr3, q * 4096);
            a.Some? && a.value > LOWEST_FREED * 4096 && (a.value / 4096 >= L.UserFirst() <==> !kernel)
  {
    CurrentHasKernel(L, vm, o);
    if kernel {
      assert Managed(vm.dirs, Kernel(q)) && Backing(vm.phys, vm.dirs, Kernel(q)) == KFrame(vm.phys, q);
      KernelAgrees(vm.phys, vm.cr3, q);
      assert OwnerOk(L, vm.phys, vm.dirs, KFrame(vm.phys, q).value, KPage(q));
    } else {
      assert Managed(vm.dirs, User(Who(vm), q)) && Backing(vm.phys, vm.dirs, User(Who(vm), q)).Some?;
      assert OwnerOk(L, vm.phys, vm.dirs, FrameAt(vm.phys, vm.cr3, q).value, UPage(Who(vm), q));
    }
    TranslateIs(vm.phys, vm.cr3, q, 0);
  }

  lemma BitsLength(L: Layout, vm: Vm)
    requires BitsOk(L, vm)
    ensures |vm.ubits| == |vm.dirs|
  {
  }

  lemma TreeOkBits(L: Layout, vm: Vm, w: Vm, o: Owners)
    requires TreeOk(L, vm, o) && w == vm.(kbits := w.kbits, ubits := w.ubits) && |w.ubits| == |vm.ubits|
    ensures TreeOk(L, w, o)
  {
  }

  lemma VmHasTree(L: Layout, vm: Vm, o: Owners)
    requires VmOk(L, vm, o)
    ensures TreeOk(L, vm, o) && BitsOk(L, vm)
  {
  }

  // pfree of mapped pages comes through and unmaps exactly the run, whatever becomes of the pools.
  lemma PfreeTree(L: Layout, vm: Vm, o: Owners, kernel: bool, q: nat, n: nat) returns (o': Owners)
    requires TreeOk(L, vm, o) && BitsOk(L, vm) && MayAsk(vm, kernel) && 1 <= n && Base(kernel) <= q
    requires Removable(vm.phys, vm.dirs, kernel, Who(vm), q, n)
    ensures Pfree(L, vm, kernel, q, n).Go?
    ensures var vm' := Pfree(L, vm, kernel, q, n).vm;
            && TreeOk(L, vm', o') && BitsOk(L, vm') && UnmapsRun(vm.phys, vm'.phys, vm.dirs, kernel, Who(vm), q, n)
            && vm' == WithBits(vm, kernel, {}, Interval(q - Base(kernel), n)).(phys := vm'.phys, pools := vm'.pools)
            && (PoolsOk(L, vm, o) && RunReturnable(L, vm.phys, vm.dirs, kernel, Who(vm), q, n) ==> PoolsOk(L, vm', o'))
            && (StuckBit(L, vm.pools) ==> StuckBit(L, vm'.pools))
  {
    hide TreeOk, BitsOk, UnmapsRun, Removable, RunReturnable, FreeRun, VirtualAddrToPhysicAddr, StuckBit;
    BitsLength(L, vm);
    FirstPage(L, vm, o, kernel, q, n);
    o' := FreeRunTree(L, vm, o, kernel, q, n);
    var v := FreeRun(L, vm, !kernel, q, n).vm;
    var vm' := WithBits(v, kernel, {}, Interval(q - Base(kernel), n));
    TreeOkBits(L, v, vm', o');
    BitsAfterFree(L, vm, vm', kernel, q, n);
  }

  // The guards of memory.c:272-277: pfree comes through exactly for at least one page, the first of them
  // at a physical address above 0x102000, when the freeing loop does.
  lemma PfreeGuards(L: Layout, vm: Vm, kernel: bool, q: nat, n: nat, a: nat)
    requires MayAsk(vm, kernel) && Base(kernel) <= q && VirtualAddrToPhysicAddr(vm.phys, vm.cr3, q * 4096) == Some(a)
    ensures Pfree(L, vm, kernel, q, n).Go? <==> 1 <= n && a > 0x102000 && FreeRun(L, vm, a / 4096 >= L.UserFirst(), q, n).Go?
  {
    hide FreeRun, VirtualAddrToPhysicAddr;
  }

  // Every valid pfree runs through, unmaps exactly the run, and keeps everything.
  lemma PfreeOk(L: Layout, vm: Vm, o: Owners, kernel: bool, q: nat, n: nat) returns (o': Owners)
    requires VmOk(L, vm, o) && MayAsk(vm, kernel) && 1 <= n && Base(kernel) <= q
    requires Freeable(L, vm.phys, vm.dirs, kernel, Who(vm), q, n)
    ensures Pfree(L, vm, kernel, q, n).Go?
    ensures var vm' := Pfree(L, vm, kernel, q, n).vm;
            && VmOk(L, vm', o') && UnmapsRun(vm.phys, vm'.phys, vm.dirs, kernel, Who(vm), q, n)
            && vm' == WithBits(vm, kernel, {}, Interval(q - Base(kernel), n)).(phys := vm'.phys, pools := vm'.pools)
  {
    hide TreeOk, BitsOk, UnmapsRun, Removable, RunReturnable, Pfree, PoolsOk;
    o' := PfreeTree(L, vm, o, kernel, q, n);
  }

  // A frame of the run that is not returnable stays marked though nothing uses it any more.
  lemma PfreeSpoils(L: Layout, vm: Vm, o: Owners, kernel: bool, q: nat, n: nat)
    requires VmOk(L, vm, o) && MayAsk(vm, kernel) && 1 <= n && Base(kernel) <= q
    requires Removable(vm.phys, vm.dirs, kernel, Who(vm), q, n)
    requires !RunReturnable(L, vm.phys, vm.dirs, kernel, Who(vm), q, n)
    ensures Pfree(L, vm, kernel, q, n).Go? && !Sound(L, Pfree(L, vm, kernel, q, n).vm)
  {
    var y: Place :| Managed(vm.dirs, y) && InRun(kernel, Who(vm), q, n, y) && Backing(vm.phys, vm.dirs, y).Some?
                    && !Returnable(L, Backing(vm.phys, vm.dirs, y).value);
    var f := Backing(vm.phys, vm.dirs, y).value;
    FirstUserFrameMarked(L, vm, o, y);
    var o' := PfreeTree(L, vm, o, kernel, q, n);
    var vm' := Pfree(L, vm, kernel, q, n).vm;
    hide Pfree, VmOk, Removable, RunReturnable;
    CoreHasTables(L, vm, o);
    forall x: Place | Managed(vm'.dirs, x) ensures Backing(vm'.phys, vm'.dirs, x) != Some(f) {
      if !InRun(kernel, Who(vm), q, n, x) && Backing(vm.phys, vm.dirs, x) == Some(f) { NoSharedFrame(L, vm.phys, vm.dirs, o, x, y); }
    }
    MarkedForNothing(L, vm', f);
  }

  lemma FirstUserFrameMarked(L: Layout, vm: Vm, o: Owners, y: Place)
    requires VmOk(L, vm, o) && Managed(vm.dirs, y) && Backing(vm.phys, vm.dirs, y) == Some(L.UserFirst()) && L.kernelPages % 8 != 0
    ensures StuckBit(L, vm.pools) && L.UserFrame(L.UserFirst())
  {
    var f := L.UserFirst();
    var w := if y.Kernel? then KPage(y.q) else UPage(y.p, y.q);
    assert Owns(o, f, w) && OwnerOk(L, vm.phys, vm.dirs, f, w);
    assert vm.pools.Marked(L, f);
  }

  // A set user bit for a frame that backs nothing contradicts soundness.
  lemma MarkedForNothing(L: Layout, vm: Vm, f: nat)
    requires f == L.UserFirst() && L.UserFrame(f) && 0 in vm.pools.user
    requires forall x: Place | Managed(vm.dirs, x) :: Backing(vm.phys, vm.dirs, x) != Some(f)
    ensures !Sound(L, vm)
  {
    if Sound(L, vm) {
      var o: Owners :| VmOk(L, vm, o);
      NothingOwned(L, vm, o, f);
    }
  }

  function PlaceOf(w: Owner): Place
  {
    match w case KPage(q) => Kernel(q) case UPage(p, q) => User(p, q) case Table(p, i) => User(p, i)
  }

  lemma NothingOwned(L: Layout, vm: Vm, o: Owners, f: nat)
    requires VmOk(L, vm, o) && f == L.UserFirst() && L.UserFrame(f)
    requires forall x: Place | Managed(vm.dirs, x) :: Backing(vm.phys, vm.dirs, x) != Some(f)
    ensures 0 !in vm.pools.user
  {
    CoreHasTables(L, vm, o);
    assert f in o ==> OwnerOk(L, vm.phys, vm.dirs, f, o[f]);
    assert f in o ==> !o[f].Table? && Managed(vm.dirs, PlaceOf(o[f]));
    assert vm.pools.Marked(L, f) <==> f in o;
  }

  // Freeing mapped pages keeps the invariant exactly when every frame of the run is returnable.
  lemma PfreeSoundIff(L: Layout, vm: Vm, kernel: bool, q: nat, n: nat)
    requires Sound(L, vm) && MayAsk(vm, kernel) && 1 <= n && Base(kernel) <= q
    requires Removable(vm.phys, vm.dirs, kernel, Who(vm), q, n)
    ensures Pfree(L, vm, kernel, q, n).Go?
    ensures Sound(L, Pfree(L, vm, kernel, q, n).vm) <==> RunReturnable(L, vm.phys, vm.dirs, kernel, Who(vm), q, n)
  {
    hide VmOk, Pfree, Removable, RunReturnable, UnmapsRun;
    var o: Owners :| VmOk(L, vm, o);
    if RunReturnable(L, vm.phys, vm.dirs, kernel, Who(vm), q, n) {
      assert Freeable(L, vm.phys, vm.dirs, kernel, Who(vm), q, n);
      var o' := PfreeOk(L, vm, o, kernel, q, n);
      assert VmOk(L, Pfree(L, vm, kernel, q, n).vm, o');
    } else {
      PfreeSpoils(L, vm, o, kernel, q, n);
    }
  }

  // ----- creating and switching address spaces

  lemma CreatPDEOk(L: Layout, vm: Vm, o: Owners) returns (o': Owners)
    requires VmOk(L, vm, o)
    ensures !CreatPDE(L, vm).KernelFault?
    ensures CreatPDE(L, vm).Got? ==>
              var vm' := CreatPDE(L, vm).vm;
              && VmOk(L, vm', o') && vm'.dirs == vm.dirs + [CreatPDE(L, vm).page] && vm'.ubits == vm.ubits + [{}]
              && (forall q: nat | KernelPage(q) && q != CreatPDE(L, vm).page :: KFrame(vm'.phys, q) == KFrame(vm.phys, q))
  {
    hide CoreOk, BitsOk, MapsRun, Unmapped, Palloc, TablesOk, NewDirectory, VirtualAddrToPhysicAddr;
    o' := PallocOk(L, vm, o, true, 1);
    if Palloc(L, vm, true, 1).Got? {
      var q, v := Palloc(L, vm, true, 1).page, Palloc(L, vm, true, 1).vm;
      CoreHasTables(L, vm, o);
      CoreHasTables(L, v, o');
      FreshDirectory(L, vm, v, o', q);
      NewDirectoryOk(L, v.phys, v.dirs, o', v.cr3, q);
      SpaceAdded(L, v, CreatPDE(L, vm).vm, o', q);
      OthersKept(vm.phys, v.phys, vm.dirs, Who(vm), q);
    }
  }

  lemma CoreHasTables(L: Layout, vm: Vm, o: Owners)
    requires CoreOk(L, vm, o)
    ensures TablesOk(L, vm.phys, vm.dirs, o) && DirsOk(vm.phys, vm.dirs)
  {
  }

  lemma OthersKept(m: Memory, m': Memory, dirs: seq<nat>, c: nat, q: nat)
    requires MapsRun(m, m', dirs, true, c, q, 1)
    ensures forall r: nat | KernelPage(r) && r != q :: KFrame(m', r) == KFrame(m, r)
  {
    forall r: nat | KernelPage(r) && r != q ensures KFrame(m', r) == KFrame(m, r) {
      assert Managed(dirs, Kernel(r));
      assert Backing(m', dirs, Kernel(r)) == Backing(m, dirs, Kernel(r));
    }
  }

  // The page kpalloc returns is no directory yet, and its frame is not the current one.
  lemma FreshDirectory(L: Layout, vm: Vm, v: Vm, o: Owners, q: nat)
    requires DirsOk(vm.phys, vm.dirs) && Unmapped(vm.phys, vm.dirs, true, Who(vm), q, 1) && KernelPage(q)
    requires CoreOk(L, v, o) && v.dirs == vm.dirs && MapsRun(vm.phys, v.phys, vm.dirs, true, Who(vm), q, 1)
    ensures KFrame(v.phys, q).Some? && KernelPart(v.phys, v.cr3) && KFrame(v.phys, q).value != v.cr3
    ensures forall p: nat | p < |v.dirs| :: v.dirs[p] != q
    ensures VirtualAddrToPhysicAddr(v.phys, v.cr3, q * 4096) == Some(KFrame(v.phys, q).value * 4096)
  {
    assert Managed(vm.dirs, Kernel(q)) && Backing(vm.phys, vm.dirs, Kernel(q)) == None;
    assert Backing(v.phys, vm.dirs, Kernel(q)).Some?;
    CurrentHasKernel(L, v, o);
    KernelAgrees(v.phys, v.cr3, q);
    TranslateIs(v.phys, v.cr3, q, 0);
    var d := KFrame(v.phys, q).value;
    assert Owns(o, d, KPage(q)) && OwnerOk(L, v.phys, v.dirs, d, KPage(q));
    if v.current.Some? { DirIsOwned(L, v.phys, v.dirs, o, v.current.value); }
  }

  lemma SpaceAdded(L: Layout, v: Vm, v': Vm, o: Owners, q: nat)
    requires VmOk(L, v, o) && KernelPage(q) && KFrame(v.phys, q).Some?
    requires TablesOk(L, v'.phys, v.dirs + [q], o)
    requires v' == v.(phys := v'.phys, dirs := v.dirs + [q], ubits := v.ubits + [{}])
    requires forall r: nat | KernelPage(r) :: KFrame(v'.phys, r) == KFrame(v.phys, r)
    requires forall p: nat | p < |v.dirs| :: Dir(v'.phys, v.dirs[p]) == Dir(v.phys, v.dirs[p])
    requires forall p: nat, u: nat | p < |v.dirs| && UserPage(u) ::
               FrameAt(v'.phys, Dir(v.phys, v.dirs[p]), u) == FrameAt(v.phys, Dir(v.phys, v.dirs[p]), u)
    requires forall u: nat | UserPage(u) :: FrameAt(v'.phys, KFrame(v.phys, q).value, u) == None
    ensures VmOk(L, v', o)
  {
    hide TablesOk, HasTable, DirEntry;
    assert PoolsOk(L, v', o) && CurrentOk(v');
    hide PoolsOk, CurrentOk;
    forall p: nat, u: nat | p < |v'.dirs| && UserPage(u)
      ensures FrameAt(v'.phys, Dir(v'.phys, v'.dirs[p]), u).Some? <==> USER_BASE <= u && u - USER_BASE in v'.ubits[p]
    {
      if p == |v.dirs| { assert Dir(v'.phys, v'.dirs[p]) == KFrame(v.phys, q).value; }
    }
  }

  // Whichever process is current, switching loads the frame of the wanted directory.
  lemma ActivePDEOk(L: Layout, vm: Vm, o: Owners, to: Option<nat>)
    requires VmOk(L, vm, o) && (to.Some? ==> to.value < |vm.dirs|)
    ensures ActivePDE(vm, to).Go?
    ensures var vm' := ActivePDE(vm, to).vm;
            && VmOk(L, vm', o) && vm' == vm.(cr3 := vm'.cr3, current := to)
            && vm'.cr3 == (if to.Some? then Dir(vm.phys, vm.dirs[to.value]) else BOOT)
  {
    hide TablesOk, VirtualAddrToPhysicAddr;
    if to.Some? {
      DirectoryAddress(L, vm, o, to.value);
    }
    var vm' := ActivePDE(vm, to).vm;
    assert BitsOk(L, vm');
    hide BitsOk;
    assert CurrentOk(vm');
    assert CoreOk(L, vm', o);
  }

  lemma DirectoryAddress(L: Layout, vm: Vm, o: Owners, p: nat)
    requires CoreOk(L, vm, o) && p < |vm.dirs|
    ensures VirtualAddrToPhysicAddr(vm.phys, vm.cr3, vm.dirs[p] * 4096) == Some(Dir(vm.phys, vm.dirs[p]) * 4096)
  {
    var q := vm.dirs[p];
    CurrentHasKernel(L, vm, o);
    KernelAgrees(vm.phys, vm.cr3, q);
    TranslateIs(vm.phys, vm.cr3, q, 0);
  }

  // ----- whole runs

  // The state VmemPoolInit and SetupPage leave behind: one directory, no managed page.
  lemma BootSound(L: Layout, phys: Memory, guard: bool)
    requires LayoutOk(L) && KernelPart(phys, BOOT) && LowOk(phys)
    requires forall q: nat | KernelPage(q) :: KFrame(phys, q) == None
    ensures Sound(L, Vm(phys, BOOT, Pools({}, {}), {}, guard, [], [], None))
  {
    var vm := Vm(phys, BOOT, Pools({}, {}), {}, guard, [], [], None);
    var o: Owners := map[];
    assert VmOk(L, vm, o);
  }

  datatype Op =
    | Allocate(kernel: bool, n: nat)
    | Release(fromKernel: bool, q: nat, count: nat)
    | NewProcess
    | SwitchTo(to: Option<nat>)

  // What the caller of an operation must respect. Requests of any size are allowed.
  ghost predicate Legal(L: Layout, vm: Vm, op: Op)
  {
    match op
    case Allocate(k, _) => MayAsk(vm, k)
    case Release(k, q, n) => MayAsk(vm, k) && 1 <= n && Base(k) <= q && Freeable(L, vm.phys, vm.dirs, k, Who(vm), q, n)
    case NewProcess => true
    case SwitchTo(to) => to.Some? ==> to.value < |vm.dirs|
  }

  function Settle(vm: Vm, a: Alloc): Out
  {
    match a case Got(_, v) => Go(v) case Null => Go(vm) case NoReturn => Stuck case KernelFault => Trap
  }

  ghost function Perform(L: Layout, vm: Vm, op: Op): Out
    requires Legal(L, vm, op)
  {
    match op
    case Allocate(k, n) => Settle(vm, Palloc(L, vm, k, n))
    case Release(k, q, n) => Pfree(L, vm, k, q, n)
    case NewProcess => Settle(vm, CreatPDE(L, vm))
    case SwitchTo(to) => ActivePDE(vm, to)
  }

  ghost predicate Sound(L: Layout, vm: Vm)
  {
    exists o: Owners :: VmOk(L, vm, o)
  }

  lemma OpKeeps(L: Layout, vm: Vm, op: Op)
    requires Sound(L, vm) && Legal(L, vm, op)
    ensures !Perform(L, vm, op).Trap?
    ensures Perform(L, vm, op).Go? ==> Sound(L, Perform(L, vm, op).vm)
    ensures op.Release? || op.SwitchTo? ==> Perform(L, vm, op).Go?
  {
    hide VmOk, Palloc, Pfree, CreatPDE, ActivePDE, Freeable;
    var o: Owners :| VmOk(L, vm, o);
    match op {
      case Allocate(k, n) =>
        var o' := PallocOk(L, vm, o, k, n);
        if Palloc(L, vm, k, n).Got? { assert VmOk(L, Palloc(L, vm, k, n).vm, o'); }
      case Release(k, q, n) =>
        var o' := PfreeOk(L, vm, o, k, q, n);
        assert VmOk(L, Pfree(L, vm, k, q, n).vm, o');
      case NewProcess =>
        var o' := CreatPDEOk(L, vm, o);
        if CreatPDE(L, vm).Got? { assert VmOk(L, CreatPDE(L, vm).vm, o'); }
      case SwitchTo(to) =>
        ActivePDEOk(L, vm, o, to);
        assert VmOk(L, ActivePDE(vm, to).vm, o);
    }
  }

  // In every sound state, each pool's set bits are exactly its frames that back a managed page or
  // serve as a page table ...
  lemma PoolBitsExact(L: Layout, vm: Vm, f: nat)
    requires Sound(L, vm)
    ensures vm.pools.Marked(L, f) <==> Backs(vm.phys, vm.dirs, f) || ServesAsTable(vm.phys, vm.dirs, f)
  {
    var o: Owners :| VmOk(L, vm, o);
    assert vm.pools.Marked(L, f) <==> f in o;
    CoreHasTables(L, vm, o);
    OwnedIffUsed(L, vm.phys, vm.dirs, o, f);
  }

  // ... no frame backs two managed pages, and all address spaces agree on the kernel.
  lemma SoundIsolation(L: Layout, vm: Vm, x: Place, y: Place)
    requires Sound(L, vm) && Managed(vm.dirs, x) && Managed(vm.dirs, y)
    requires Backing(vm.phys, vm.dirs, x).Some? && Backing(vm.phys, vm.dirs, x) == Backing(vm.phys, vm.dirs, y)
    ensures x == y
  {
    var o: Owners :| VmOk(L, vm, o);
    NoSharedFrame(L, vm.phys, vm.dirs, o, x, y);
  }

  lemma SoundKernelShared(L: Layout, vm: Vm, p: nat, v: nat)
    requires Sound(L, vm) && p < |vm.dirs| && KERNEL_BASE * 4096 <= v < KERNEL_TOP * 4096
    ensures Walk(vm.phys, Dir(vm.phys, vm.dirs[p]), v) == Walk(vm.phys, BOOT, v)
  {
    var o: Owners :| VmOk(L, vm, o);
    SpacesAgree(L, vm.phys, vm.dirs, o, p, v);
  }

  // The states a sequence of operations passes through.
  ghost predicate Trace(L: Layout, states: seq<Vm>, ops: seq<Op>)
  {
    && |states| == |ops| + 1
    && forall i, j | 0 <= i && j == i + 1 && j < |states| ::
         Legal(L, states[i], ops[i]) && Perform(L, states[i], ops[i]) == Go(states[j])
  }

  // Over every run: bitmaps, pools and page tables agree in every state reached.
  lemma {:induction false} RunSound(L: Layout, states: seq<Vm>, ops: seq<Op>, k: nat)
    requires Trace(L, states, ops) && Sound(L, states[0]) && k < |states|
    ensures Sound(L, states[k])
  {
    if k > 0 {
      RunSound(L, states, ops, k - 1);
      var before, after := states[k - 1], states[k];
      assert Legal(L, before, ops[k - 1]) && Perform(L, before, ops[k - 1]) == Go(after);
      OpKeeps(L, states[k - 1], ops[k - 1]);
    }
  }
}
