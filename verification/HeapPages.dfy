// The pages behind the arenas: what palloc and pfree mean for a heap (source/kernel/memory.c:417-564).
module HeapPages {
  import opened Basics
  import opened Frames
  import opened Paging
  import opened Spaces
  import opened Vmem
  import opened VmemData
  import opened HeapSpec
  import opened HeapMemory

  // Page g belongs to the heap of the kernel or of process proc: its bit is set in the virtual
  // bitmap, and it is nobody's page directory.
  predicate Held(vm: Vm, kernel: bool, proc: nat, g: nat)
  {
    && Base(kernel) <= g
    && (if kernel then g - HEAP_BASE in vm.kbits && g !in vm.dirs
        else proc < |vm.ubits| && g - USER_BASE in vm.ubits[proc])
  }

  // Page g is one of the pages of arena p.
  predicate ArenaPage(arenas: map<nat, Kind>, p: nat, g: nat)
  {
    p in arenas && p / PAGE_WORDS <= g < p / PAGE_WORDS + Pages(arenas[p])
  }

  ghost predicate PagesHeld(vm: Vm, kernel: bool, proc: nat, arenas: map<nat, Kind>)
  {
    forall p: nat, g: nat | ArenaPage(arenas, p, g) :: Held(vm, kernel, proc, g)
  }

  // The heap's requests go to its own virtual bitmap.
  predicate Asks(vm: Vm, kernel: bool, proc: nat)
  {
    kernel || (vm.current == Some(proc) && proc < |vm.ubits|)
  }

  // The descriptors lie in kernel memory below the kernel heap, or above all user memory.
  predicate DescsPlaced(kernel: bool, D: nat)
  {
    0 < D && if kernel then D + DESC_WORDS <= HEAP_BASE * PAGE_WORDS else KERNEL_BASE * PAGE_WORDS <= D
  }

  // What the heap relies on when palloc hands it n > 0 pages from g on.
  ghost predicate NewPages(vm: Vm, vm': Vm, kernel: bool, proc: nat, g: nat, n: nat)
  {
    && Base(kernel) <= g && 0 < g && (!kernel ==> g + n <= KERNEL_BASE)
    && (forall h: nat :: Held(vm, kernel, proc, h) ==> Held(vm', kernel, proc, h) && !(g <= h < g + n))
    && (forall h: nat | g <= h < g + n :: Held(vm', kernel, proc, h))
    && Asks(vm', kernel, proc)
  }

  // A page with a set bit is mapped, one with a clear bit is not.
  lemma HeldIsMapped(L: Layout, vm: Vm, kernel: bool, proc: nat, g: nat)
    requires BitsOk(L, vm) && LayoutOk(L) && Held(vm, kernel, proc, g)
    ensures var x := if kernel then Kernel(g) else User(proc, g);
            Managed(vm.dirs, x) && Backing(vm.phys, vm.dirs, x).Some?
  {
    if kernel {
      assert g - HEAP_BASE <= 8 * L.KernelBytes();
    } else {
      assert g - USER_BASE < USER_BITS && UserPage(g);
      assert FrameAt(vm.phys, Dir(vm.phys, vm.dirs[proc]), g).Some?;
    }
  }

  lemma PallocNewPages(L: Layout, vm: Vm, kernel: bool, proc: nat, n: nat)
    requires Sound(L, vm) && Asks(vm, kernel, proc) && 0 < n && Palloc(L, vm, kernel, n).Got?
    ensures var g, vm' := Palloc(L, vm, kernel, n).page, Palloc(L, vm, kernel, n).vm;
            Sound(L, vm') && NewPages(vm, vm', kernel, proc, g, n)
  {
    var o: Owners :| VmOk(L, vm, o);
    PallocNewPagesOf(L, vm, o, kernel, proc, n);
  }

  lemma PallocNewPagesOf(L: Layout, vm: Vm, o: Owners, kernel: bool, proc: nat, n: nat)
    requires VmOk(L, vm, o) && Asks(vm, kernel, proc) && 0 < n && Palloc(L, vm, kernel, n).Got?
    ensures var g, vm' := Palloc(L, vm, kernel, n).page, Palloc(L, vm, kernel, n).vm;
            Sound(L, vm') && NewPages(vm, vm', kernel, proc, g, n)
  {
    hide VmOk, Palloc, Unmapped, MapsRun;
    var o' := PallocOk(L, vm, o, kernel, n);
    var g, vm' := Palloc(L, vm, kernel, n).page, Palloc(L, vm, kernel, n).vm;
    assert VmOk(L, vm', o');
    FreshAreNotHeld(L, vm, o, kernel, proc, g, n);
    BitsAdded(vm, vm', kernel, proc, g, n);
  }

  lemma BitsAdded(vm: Vm, vm': Vm, kernel: bool, proc: nat, g: nat, n: nat)
    requires Asks(vm, kernel, proc) && Base(kernel) <= g
    requires vm' == WithBits(vm, kernel, Interval(g - Base(kernel), n), {}).(phys := vm'.phys, pools := vm'.pools)
    requires kernel ==> forall h: nat | g <= h < g + n :: h !in vm.dirs
    ensures forall h: nat :: Held(vm, kernel, proc, h) ==> Held(vm', kernel, proc, h)
    ensures forall h: nat | g <= h < g + n :: Held(vm', kernel, proc, h)
    ensures Asks(vm', kernel, proc)
  {
    forall h: nat | g <= h < g + n ensures Held(vm', kernel, proc, h) { assert h - Base(kernel) in Interval(g - Base(kernel), n); }
  }

  // Pages that were unmapped were neither held nor directories.
  lemma FreshAreNotHeld(L: Layout, vm: Vm, o: Owners, kernel: bool, proc: nat, g: nat, n: nat)
    requires VmOk(L, vm, o) && Asks(vm, kernel, proc) && Unmapped(vm.phys, vm.dirs, kernel, Who(vm), g, n)
    requires RunFits(kernel, g, n) && (!kernel ==> g + n <= KERNEL_BASE)
    ensures forall h: nat | g <= h < g + n :: !Held(vm, kernel, proc, h) && (kernel ==> h !in vm.dirs)
  {
    forall h: nat | g <= h < g + n ensures !Held(vm, kernel, proc, h) && (kernel ==> h !in vm.dirs) {
      var x := if kernel then Kernel(h) else User(proc, h);
      assert Managed(vm.dirs, x) && InRun(kernel, Who(vm), g, n, x);
      assert Backing(vm.phys, vm.dirs, x) == None;
      if Held(vm, kernel, proc, h) { HeldIsMapped(L, vm, kernel, proc, h); }
    }
  }

  // New pages overlap no arena, and the heap holds them too.
  lemma NewPagesUnused(vm: Vm, vm': Vm, kernel: bool, proc: nat, v: HeapView, g: nat, n: nat)
    requires ArenasOk(v.arenas) && PagesHeld(vm, kernel, proc, v.arenas) && NewPages(vm, vm', kernel, proc, g, n) && 0 < n
    ensures Unused(v, g * PAGE_WORDS, n)
  {
    forall q | q in v.arenas
      ensures q + PAGE_WORDS * Pages(v.arenas[q]) <= g * PAGE_WORDS || g * PAGE_WORDS + PAGE_WORDS * n <= q
    {
      var r: nat, m := q / PAGE_WORDS, Pages(v.arenas[q]);
      assert q == r * PAGE_WORDS && 1 <= m;
      assert ArenaPage(v.arenas, q, r);
      assert r <= g < r + m ==> ArenaPage(v.arenas, q, g);
    }
  }

  lemma NewPagesHeld(vm: Vm, vm': Vm, kernel: bool, proc: nat, v: HeapView, g: nat, a: Kind)
    requires PagesHeld(vm, kernel, proc, v.arenas) && NewPages(vm, vm', kernel, proc, g, Pages(a))
    ensures PagesHeld(vm', kernel, proc, v.arenas[g * PAGE_WORDS := a])
  {
    var p := g * PAGE_WORDS;
    var after := v.arenas[p := a];
    assert p / PAGE_WORDS == g;
    forall q: nat, h: nat | ArenaPage(after, q, h) ensures Held(vm', kernel, proc, h) {
      if q != p { assert ArenaPage(v.arenas, q, h); }
    }
  }

  lemma NewPagesApart(vm: Vm, vm': Vm, kernel: bool, proc: nat, v: HeapView, D: nat, g: nat, a: Kind)
    requires DescsPlaced(kernel, D) && DescsApart(D, v.arenas) && NewPages(vm, vm', kernel, proc, g, Pages(a))
    ensures DescsApart(D, v.arenas[g * PAGE_WORDS := a])
  {
  }

  // ----- giving pages back

  // Held pages are mapped and no directories: pfree can remove them.
  lemma HeldIsRemovable(L: Layout, vm: Vm, kernel: bool, proc: nat, g: nat, n: nat)
    requires Sound(L, vm) && Asks(vm, kernel, proc) && 0 < n
    requires forall h: nat | g <= h < g + n :: Held(vm, kernel, proc, h)
    ensures Removable(vm.phys, vm.dirs, kernel, Who(vm), g, n) && Base(kernel) <= g && MayAsk(vm, kernel)
    ensures g - Base(kernel) + n <= BitCount(L, kernel) + if kernel && vm.guard then 0 else 1
  {
    var o: Owners :| VmOk(L, vm, o);
    hide CoreOk, BitsOk;
    assert Held(vm, kernel, proc, g) && Held(vm, kernel, proc, g + n - 1);
    HeldInBitmap(L, vm, kernel, proc, g + n - 1);
    HeldIsMapped(L, vm, kernel, proc, g + n - 1);
    assert Base(kernel) <= g;
    forall y: Place | Managed(vm.dirs, y) && InRun(kernel, Who(vm), g, n, y)
      ensures Backing(vm.phys, vm.dirs, y).Some? && (y.Kernel? ==> y.q !in vm.dirs)
    {
      assert Held(vm, kernel, proc, y.q);
      HeldIsMapped(L, vm, kernel, proc, y.q);
    }
  }

  lemma HeldInBitmap(L: Layout, vm: Vm, kernel: bool, proc: nat, h: nat)
    requires BitsOk(L, vm) && Held(vm, kernel, proc, h)
    ensures h - Base(kernel) < BitCount(L, kernel) + if kernel && vm.guard then 0 else 1
  {
    if kernel { assert h - HEAP_BASE <= 8 * L.KernelBytes(); }
  }

  // pfree of a held run succeeds, and the heap keeps its other pages; the memory manager's invariant
  // survives exactly when every frame of the run is returnable.
  lemma PfreeHeld(L: Layout, vm: Vm, kernel: bool, proc: nat, g: nat, n: nat)
    requires Sound(L, vm) && Asks(vm, kernel, proc) && 0 < n
    requires forall h: nat | g <= h < g + n :: Held(vm, kernel, proc, h)
    ensures MayAsk(vm, kernel) && Base(kernel) <= g && Pfree(L, vm, kernel, g, n).Go?
    ensures var vm' := Pfree(L, vm, kernel, g, n).vm;
            && (Sound(L, vm') <==> RunReturnable(L, vm.phys, vm.dirs, kernel, Who(vm), g, n)) && Asks(vm', kernel, proc)
            && forall h: nat :: Held(vm', kernel, proc, h) <==> Held(vm, kernel, proc, h) && !(g <= h < g + n)
  {
    hide VmOk, Pfree, Removable, UnmapsRun, RunReturnable, TreeOk, BitsOk;
    HeldIsRemovable(L, vm, kernel, proc, g, n);
    PfreeSoundIff(L, vm, kernel, g, n);
    var o: Owners :| VmOk(L, vm, o);
    VmHasTree(L, vm, o);
    var o' := PfreeTree(L, vm, o, kernel, g, n);
    var vm' := Pfree(L, vm, kernel, g, n).vm;
    hide Sound;
    forall h: nat ensures Held(vm', kernel, proc, h) <==> Held(vm, kernel, proc, h) && !(g <= h < g + n) {
      if Base(kernel) <= h { assert h - Base(kernel) in Interval(g - Base(kernel), n) <==> g <= h < g + n; }
    }
  }

  // The pages of one arena, and the others after it is gone.
  lemma ArenaPages(vm: Vm, kernel: bool, proc: nat, v: HeapView, p: nat)
    requires ArenasOk(v.arenas) && PagesHeld(vm, kernel, proc, v.arenas) && p in v.arenas
    ensures p == p / PAGE_WORDS * PAGE_WORDS && 1 <= Pages(v.arenas[p])
    ensures forall h: nat | ArenaPage(v.arenas, p, h) :: Held(vm, kernel, proc, h)
    ensures forall q: nat, h: nat | ArenaPage(v.arenas, q, h) && q != p :: !ArenaPage(v.arenas, p, h)
  {
    forall q | q in v.arenas ensures q == q / PAGE_WORDS * PAGE_WORDS { }
  }

  lemma PagesAfterFree(vm: Vm, vm': Vm, kernel: bool, proc: nat, v: HeapView, p: nat)
    requires ArenasOk(v.arenas) && PagesHeld(vm, kernel, proc, v.arenas) && p in v.arenas
    requires var g, n := p / PAGE_WORDS, Pages(v.arenas[p]);
             forall h: nat :: Held(vm', kernel, proc, h) <==> Held(vm, kernel, proc, h) && !(g <= h < g + n)
    ensures PagesHeld(vm', kernel, proc, v.arenas - {p})
  {
    ArenaPages(vm, kernel, proc, v, p);
    forall q: nat, h: nat | ArenaPage(v.arenas - {p}, q, h) ensures Held(vm', kernel, proc, h) {
      assert ArenaPage(v.arenas, q, h) && !ArenaPage(v.arenas, p, h);
    }
  }

  // ----- the contents of the heap's pages

  function HeapPlace(kernel: bool, proc: nat, g: nat): Place { if kernel then Kernel(g) else User(proc, g) }

  // Seen through the page tables, every page of the arenas is where it was and holds what it held.
  ghost predicate PagesKept(vm: Vm, vm': Vm, kernel: bool, proc: nat, arenas: map<nat, Kind>)
  {
    forall p: nat, g: nat | ArenaPage(arenas, p, g) ::
      DataPage(vm, HeapPlace(kernel, proc, g)) && Preserved(vm, vm', HeapPlace(kernel, proc, g))
  }

  lemma HeldIsData(L: Layout, vm: Vm, o: Owners, kernel: bool, proc: nat, g: nat)
    requires VmOk(L, vm, o) && Held(vm, kernel, proc, g)
    ensures DataPage(vm, HeapPlace(kernel, proc, g))
  {
    HeldIsMapped(L, vm, kernel, proc, g);
  }

  lemma PagesKeptAlone(L: Layout, vm: Vm, kernel: bool, proc: nat, arenas: map<nat, Kind>)
    requires Sound(L, vm) && PagesHeld(vm, kernel, proc, arenas)
    ensures PagesKept(vm, vm, kernel, proc, arenas)
  {
    hide VmOk, Held, DataPage;
    var o: Owners :| VmOk(L, vm, o);
    forall p: nat, g: nat | ArenaPage(arenas, p, g)
      ensures DataPage(vm, HeapPlace(kernel, proc, g)) && Preserved(vm, vm, HeapPlace(kernel, proc, g))
    {
      HeldIsData(L, vm, o, kernel, proc, g);
    }
  }

  lemma PallocKeepsPages(L: Layout, vm: Vm, kernel: bool, proc: nat, arenas: map<nat, Kind>, n: nat)
    requires Sound(L, vm) && MayAsk(vm, kernel) && Palloc(L, vm, kernel, n).Got? && PagesHeld(vm, kernel, proc, arenas)
    ensures PagesKept(vm, Palloc(L, vm, kernel, n).vm, kernel, proc, arenas)
  {
    hide VmOk, Palloc, Held, DataPage, Preserved;
    var o: Owners :| VmOk(L, vm, o);
    forall p: nat, g: nat | ArenaPage(arenas, p, g)
      ensures && DataPage(vm, HeapPlace(kernel, proc, g))
              && Preserved(vm, Palloc(L, vm, kernel, n).vm, HeapPlace(kernel, proc, g))
    {
      HeldIsData(L, vm, o, kernel, proc, g);
      PallocData(L, vm, o, kernel, n, HeapPlace(kernel, proc, g));
    }
  }

  lemma PfreeKeepsPages(L: Layout, vm: Vm, kernel: bool, proc: nat, v: HeapView, p: nat)
    requires Sound(L, vm) && Asks(vm, kernel, proc) && ArenasOk(v.arenas) && PagesHeld(vm, kernel, proc, v.arenas) && p in v.arenas
    ensures MayAsk(vm, kernel) && Base(kernel) <= p / PAGE_WORDS
    ensures Pfree(L, vm, kernel, p / PAGE_WORDS, Pages(v.arenas[p])).Go?
    ensures PagesKept(vm, Pfree(L, vm, kernel, p / PAGE_WORDS, Pages(v.arenas[p])).vm, kernel, proc, v.arenas - {p})
  {
    hide VmOk, Pfree, Held, DataPage, Preserved, Removable, PagesHeld;
    var g, n := p / PAGE_WORDS, Pages(v.arenas[p]);
    ArenaPages(vm, kernel, proc, v, p);
    forall h: nat | g <= h < g + n ensures Held(vm, kernel, proc, h) { assert ArenaPage(v.arenas, p, h); }
    HeldIsRemovable(L, vm, kernel, proc, g, n);
    PfreeHeld(L, vm, kernel, proc, g, n);
    var o: Owners :| VmOk(L, vm, o);
    hide Sound;
    forall q: nat, h: nat | ArenaPage(v.arenas - {p}, q, h)
      ensures && DataPage(vm, HeapPlace(kernel, proc, h))
              && Preserved(vm, Pfree(L, vm, kernel, g, n).vm, HeapPlace(kernel, proc, h))
    {
      assert ArenaPage(v.arenas, q, h) && !ArenaPage(v.arenas, p, h);
      HeldOf(vm, kernel, proc, v.arenas, q, h);
      HeldIsData(L, vm, o, kernel, proc, h);
      PfreeData(L, vm, o, kernel, g, n, HeapPlace(kernel, proc, h));
    }
  }

  lemma HeldOf(vm: Vm, kernel: bool, proc: nat, arenas: map<nat, Kind>, q: nat, h: nat)
    requires PagesHeld(vm, kernel, proc, arenas) && ArenaPage(arenas, q, h)
    ensures Held(vm, kernel, proc, h)
  {
  }
}
