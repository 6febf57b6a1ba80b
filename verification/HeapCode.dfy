// sys_malloc and sys_free on memory, page tables and bitmaps (source/kernel/memory.c:417-564).
module HeapCode {
  import opened Basics
  import opened LinkedList
  import opened HeapSpec
  import opened HeapMemory
  import opened HeapSteps
  import opened HeapPages
  import opened Frames
  import opened Spaces
  import opened Vmem
  import opened VmemCode

  // A pointer, NULL, or no return because an ASSERT failed below palloc.
  datatype Pointer = Ptr(b: nat) | NullPtr | Stopped

  // The class of a small request, in bytes: the first whose blocks are large enough.
  function ClassOf(size: nat): (k: nat)
    requires size <= 1024
    ensures k < CLASSES && size <= 4 * BlockWords(k) && (k > 0 ==> 4 * BlockWords(k - 1) < size)
  {
    if size <= 16 then 0 else if size <= 32 then 1 else if size <= 64 then 2 else if size <= 128 then 3
    else if size <= 256 then 4 else if size <= 512 then 5 else 6
  }

  // memory.c:452: pages for a large request and its 12-byte header
  function PagesFor(size: nat): (n: nat)
    ensures size + 12 <= 4096 * n < size + 12 + 4096
  {
    (size + 12 + 4095) / 4096
  }

  // Pages a request needs from palloc.
  function PagesAsked(v: HeapView, size: nat): nat
    requires |v.free| == CLASSES
  {
    if size > 1024 then PagesFor(size) else if v.free[ClassOf(size)] == [] then 1 else 0
  }

  // The request is answered as palloc answers for n pages, at address `page`; without n, directly.
  ghost predicate Supplied(L: Layout, vm: Vm, vm': Vm, kernel: bool, n: nat, page: nat, r: Pointer)
  {
    if n == 0 then r.Ptr? && vm' == vm
    else
      && MayAsk(vm, kernel)
      && match Palloc(L, vm, kernel, n)
         case Got(g, v) => r.Ptr? && page == g * PAGE_WORDS && vm' == v
         case Null => r.NullPtr?
         case NoReturn => r.Stopped?
         case KernelFault => false
  }

  lemma Supplies(L: Layout, vm: Vm, kernel: bool, proc: nat, n: nat)
    requires Sound(L, vm) && Asks(vm, kernel, proc) && 0 < n
    ensures MayAsk(vm, kernel) && !Palloc(L, vm, kernel, n).KernelFault?
    ensures Palloc(L, vm, kernel, n).Null? ==> forall vm': Vm, page: nat :: Supplied(L, vm, vm', kernel, n, page, NullPtr)
    ensures Palloc(L, vm, kernel, n).NoReturn? ==> forall vm': Vm, page: nat :: Supplied(L, vm, vm', kernel, n, page, Stopped)
    ensures Palloc(L, vm, kernel, n).Got? ==>
              forall b: nat :: Supplied(L, vm, Palloc(L, vm, kernel, n).vm, kernel, n, Palloc(L, vm, kernel, n).page * PAGE_WORDS, Ptr(b))
  {
    hide Palloc;
    var o: Owners :| VmOk(L, vm, o);
    var o' := PallocOk(L, vm, o, kernel, n);
  }

  lemma NoneSupplied(L: Layout, vm: Vm, kernel: bool, r: Pointer)
    requires r.Ptr?
    ensures Supplied(L, vm, vm, kernel, 0, 0, r)
  {
  }

  // memory.c:378-388
  method ArenaInit(ram: Ram, D: nat)
    requires 0 < D
    modifies ram
    ensures Rep(ram.w, D, HeapSpec.EMPTY)
    ensures Load(ram.w, D) == 16 && Load(ram.w, Desc(D, 6)) == 1024
    ensures forall m: nat | m < 6 :: Load(ram.w, Desc(D, m + 1)) == 2 * Load(ram.w, Desc(D, m))
    ensures forall m: nat | m < 7 :: 0 < Load(ram.w, Desc(D, m)) && Load(ram.w, Desc(D, m) + 1) == (4096 - 12) / Load(ram.w, Desc(D, m))
    ensures forall a: nat | !(D <= a < D + DESC_WORDS) :: Load(ram.w, a) == old(Load(ram.w, a))
  {
    hide DescSet, Linked;
    var k, size := 0, 16;
    while k < CLASSES
      invariant k <= CLASSES && size == (if k < CLASSES then 4 * BlockWords(k) else 2048)
      invariant forall m: nat | m < k :: DescSet(ram.w, D, m)
      invariant forall a: nat | !(D <= a < D + 6 * k) :: Load(ram.w, a) == old(Load(ram.w, a))
    {
      ghost var w := ram.w;
      AsManyAsFit(k);
      ram.w := ram.w[Desc(D, k) := size];
      ram.w := ram.w[Desc(D, k) + 1 := (4096 - 12) / size];
      ram.ListInit(ListAt(D, k));
      DescWritten(w, ram.w, D, k);
      SetDesc(ram.w, D, k);
      k, size := k + 1, 2 * size;
    }
    EmptyRep(ram.w, D);
    DescNumbers(ram.w, D);
  }

  // Descriptor m with an empty list.
  ghost predicate DescSet(w: Memory, D: nat, m: nat)
    requires m < CLASSES
  {
    && Load(w, Desc(D, m)) == 4 * BlockWords(m) && Load(w, Desc(D, m) + 1) == BlockSum(m)
    && Linked(w, ListAt(D, m), [])
  }

  lemma SetDesc(w: Memory, D: nat, m: nat)
    requires m < CLASSES && Load(w, Desc(D, m)) == 4 * BlockWords(m) && Load(w, Desc(D, m) + 1) == BlockSum(m)
    requires Linked(w, ListAt(D, m), [])
    ensures DescSet(w, D, m)
  {
  }

  lemma EmptyRep(w: Memory, D: nat)
    requires 0 < D && forall m: nat | m < CLASSES :: DescSet(w, D, m)
    ensures Rep(w, D, HeapSpec.EMPTY)
  {
    hide Linked, BlockWords, BlockSum;
    assert forall m: nat | m < CLASSES :: HeapSpec.EMPTY.free[m] == [];
    assert DescsOk(w, D) by {
      forall m: nat | m < CLASSES ensures Load(w, Desc(D, m)) == 4 * BlockWords(m) && Load(w, Desc(D, m) + 1) == BlockSum(m) {
        assert DescSet(w, D, m);
      }
    }
    forall m: nat | m < CLASSES ensures Linked(w, ListAt(D, m), HeapSpec.EMPTY.free[m]) { assert DescSet(w, D, m); }
  }

  lemma DescNumbers(w: Memory, D: nat)
    requires 0 < D && forall m: nat | m < CLASSES :: DescSet(w, D, m)
    ensures Load(w, D) == 16 && Load(w, Desc(D, 6)) == 1024
    ensures forall m: nat | m < 6 :: Load(w, Desc(D, m + 1)) == 2 * Load(w, Desc(D, m))
    ensures forall m: nat | m < 7 :: 0 < Load(w, Desc(D, m)) && Load(w, Desc(D, m) + 1) == (4096 - 12) / Load(w, Desc(D, m))
  {
    hide Load;
    forall m: nat | m < CLASSES ensures 0 < Load(w, Desc(D, m)) && Load(w, Desc(D, m) + 1) == (4096 - 12) / Load(w, Desc(D, m)) {
      OneDesc(w, D, m);
    }
    forall m: nat | m < 6 ensures Load(w, Desc(D, m + 1)) == 2 * Load(w, Desc(D, m)) {
      OneDesc(w, D, m);
      OneDesc(w, D, m + 1);
    }
    assert Desc(D, 0) == D;
    OneDesc(w, D, 0);
    OneDesc(w, D, 6);
  }

  lemma OneDesc(w: Memory, D: nat, m: nat)
    requires m < CLASSES && DescSet(w, D, m)
    ensures Load(w, Desc(D, m)) == 4 * BlockWords(m) && Load(w, Desc(D, m) + 1) == (4096 - 12) / (4 * BlockWords(m))
  {
    AsManyAsFit(m);
  }

  // Setting up descriptor k leaves those before it as they are.
  lemma DescWritten(w: Memory, w': Memory, D: nat, k: nat)
    requires 0 < D && k < CLASSES
    requires forall a: nat | !(Desc(D, k) <= a < Desc(D, k) + 6) :: Load(w', a) == Load(w, a)
    ensures forall m: nat | m < k && DescSet(w, D, m) :: DescSet(w', D, m)
  {
    forall m: nat | m < k && DescSet(w, D, m) ensures DescSet(w', D, m) {
      assert Nodes(ListAt(D, m), []) == [ListAt(D, m), ListAt(D, m) + 2];
      LinkedFrame(w, w', ListAt(D, m), []);
    }
  }

  // The kernel's heap, or the heap of process proc.
  class Heap {
    const ram: Ram
    const machine: Machine
    const kernel: bool
    const proc: nat
    const D: nat
    const poolSize: nat
    ghost var view: HeapView

    // The heap itself is in order ...
    ghost predicate Shaped()
      reads this, ram, machine, machine.frames.mem, machine.Arrays()
    {
      && DescsPlaced(kernel, D) && HeapOk(view) && Rep(ram.w, D, view) && machine.Wired()
      && Asks(machine.View(), kernel, proc) && PagesHeld(machine.View(), kernel, proc, view.arenas)
    }

    // ... and so is the memory manager.
    ghost predicate Valid()
      reads this, ram, machine, machine.frames.mem, machine.Arrays()
    {
      Shaped() && Sound(machine.L, machine.View())
    }

    // memory.c:402 for the kernel, process.c:83 for a process
    constructor (ram: Ram, machine: Machine, kernel: bool, proc: nat, D: nat, poolSize: nat)
      requires DescsPlaced(kernel, D) && machine.Wired() && Sound(machine.L, machine.View()) && Asks(machine.View(), kernel, proc)
      modifies ram
      ensures this.ram == ram && this.machine == machine && this.kernel == kernel && this.proc == proc
      ensures this.D == D && this.poolSize == poolSize
      ensures Valid() && view == HeapSpec.EMPTY
    {
      hide Rep, Sound, Machine.View, Machine.Wired;
      this.ram, this.machine, this.kernel, this.proc, this.D, this.poolSize := ram, machine, kernel, proc, D, poolSize;
      view := HeapSpec.EMPTY;
      new;
      ghost var vm, arrays := machine.View(), machine.Arrays();
      ArenaInit(ram, D);
      assert machine.Arrays() == arrays && machine.View() == vm;
      EmptyHeap(vm, kernel, proc);
    }

    // memory.c:508-512
    method TakeBlock(k: nat) returns (b: nat)
      requires k < CLASSES && Rep(ram.w, D, view) && view.free[k] != []
      modifies this`view, ram
      ensures Rep(ram.w, D, view) && view == Take(old(view), k) && b == old(view).free[k][0]
      ensures forall a: nat | b <= a < b + BlockWords(k) :: Load(ram.w, a) == 0
      ensures forall a: nat | !Within(Nodes(ListAt(D, k), old(view).free[k]), a) && !(b <= a < b + BlockWords(k)) && a != ArenaOf(b) + 1 ::
                Load(ram.w, a) == old(Load(ram.w, a))
    {
      hide Rep, RepBut, Linked, Within, Shape, ListOk, IsBlock;
      ghost var v, w := view, ram.w;
      RepSplits(w, D, v, k);
      RepFields(w, D, v);
      HeadFacts(w, D, v, k);
      b := ram.ListPop(ListAt(D, k), v.free[k]);
      ghost var w1 := ram.w;
      TakeRep(w, w1, D, v, k);
      TakenAt(w1, b, k);
      ram.w := ram.w + Zeros(b, BlockWords(k));
      var p := ArenaOf(b);
      ram.w := ram.w[p + 1 := if Load(ram.w, p + 1) == 0 then 0xFFFFFFFF else Load(ram.w, p + 1) - 1];
      assert ram.w == TakenWords(w1, b, k);
      view := Take(view, k);
    }

    // memory.c:490-506 for the page g palloc returned
    method NewArena(k: nat, g: nat)
      requires k < CLASSES && HeapOk(view) && Rep(ram.w, D, view) && view.free[k] == []
      requires Unused(view, g * PAGE_WORDS, 1) && DescsApart(D, view.arenas[g * PAGE_WORDS := Small(k)])
      modifies this`view, ram
      ensures view == Grow(old(view), g * PAGE_WORDS, k) && Rep(ram.w, D, view)
      ensures forall a: nat | !(ListAt(D, k) <= a < ListAt(D, k) + 4) && !(g * PAGE_WORDS <= a < (g + 1) * PAGE_WORDS) ::
                Load(ram.w, a) == old(Load(ram.w, a))
    {
      var p := g * PAGE_WORDS;
      ghost var v, w := view, ram.w;
      SmallHeaderRep(w, D, v, k, p);
      HeaderWordsAt(w, p, 1, Desc(D, k), BlockSum(k), 0);
      HeadersRead(w, D, v);
      hide Rep, RepBut, Linked, HeapOk;
      ram.w := ram.w + Zeros(p, PAGE_WORDS);
      ram.w := ram.w[p := Desc(D, k)];
      ram.w := ram.w[p + 1 := BlockSum(k)];
      ram.w := ram.w[p + 2 := 0];
      assert ram.w == HeaderWords(w, p, 1, Desc(D, k), BlockSum(k), 0);
      ghost var w1, after := ram.w, v.arenas[p := Small(k)];
      AppendBlocks(k, p, v);
      assert p in after && SameHeader(w1, ram.w, p);
      forall q | q in v.arenas && q != p && v.arenas[q] == Small(k) ensures Load(ram.w, q + 1) == Count(v, q) {
        assert q in after && SameHeader(w1, ram.w, q) && SameHeader(w, w1, q);
      }
      GrownRep(ram.w, D, v, k, p);
      view := Grow(v, p, k);
    }

    // memory.c:498-503
    method AppendBlocks(k: nat, p: nat, ghost v: HeapView)
      requires k < CLASSES && |v.free| == CLASSES && v.free[k] == [] && p % PAGE_WORDS == 0 && 0 < p
      requires var v1 := HeapView(v.arenas[p := Small(k)], v.free);
               RepBut(ram.w, D, v1, k) && ListOk(v1, k) && Linked(ram.w, ListAt(D, k), v1.free[k])
      modifies ram
      ensures RepBut(ram.w, D, Grow(v, p, k), k) && ListOk(Grow(v, p, k), k) && Linked(ram.w, ListAt(D, k), Grow(v, p, k).free[k])
      ensures forall q | q in v.arenas[p := Small(k)] :: SameHeader(old(ram.w), ram.w, q)
      ensures forall a: nat | !(ListAt(D, k) <= a < ListAt(D, k) + 4) && !(p <= a < p + PAGE_WORDS) :: Load(ram.w, a) == old(Load(ram.w, a))
    {
      hide RepBut, ListOk, Linked, Load, SameHeader;
      ghost var w0 := ram.w;
      var i := 0;
      assert HeapView(v.arenas[p := Small(k)], v.free) == Growing(v, p, k, 0) by { assert v.free[k := []] == v.free; }
      SameHeaders(w0, v.arenas[p := Small(k)]);
      while i < BlockSum(k)
        invariant i <= BlockSum(k)
        invariant RepBut(ram.w, D, Growing(v, p, k, i), k) && ListOk(Growing(v, p, k, i), k)
        invariant Linked(ram.w, ListAt(D, k), Fresh(p, k, i))
        invariant forall q | q in v.arenas[p := Small(k)] :: SameHeader(w0, ram.w, q)
        invariant forall a: nat | !(ListAt(D, k) <= a < ListAt(D, k) + 4) && !(p <= a < p + PAGE_WORDS) :: Load(ram.w, a) == Load(w0, a)
      {
        AppendOne(k, p, i, v, w0);
        i := i + 1;
      }
      assert [] + Fresh(p, k, BlockSum(k)) == Fresh(p, k, BlockSum(k));
      assert Growing(v, p, k, BlockSum(k)) == Grow(v, p, k);
    }

    method AppendOne(k: nat, p: nat, i: nat, ghost v: HeapView, ghost w0: Memory)
      requires k < CLASSES && |v.free| == CLASSES && p % PAGE_WORDS == 0 && i < BlockSum(k)
      requires RepBut(ram.w, D, Growing(v, p, k, i), k) && ListOk(Growing(v, p, k, i), k) && Linked(ram.w, ListAt(D, k), Fresh(p, k, i))
      requires forall q | q in v.arenas[p := Small(k)] :: SameHeader(w0, ram.w, q)
      requires forall a: nat | !(ListAt(D, k) <= a < ListAt(D, k) + 4) && !(p <= a < p + PAGE_WORDS) :: Load(ram.w, a) == Load(w0, a)
      modifies ram
      ensures RepBut(ram.w, D, Growing(v, p, k, i + 1), k) && ListOk(Growing(v, p, k, i + 1), k) && Linked(ram.w, ListAt(D, k), Fresh(p, k, i + 1))
      ensures forall q | q in v.arenas[p := Small(k)] :: SameHeader(w0, ram.w, q)
      ensures forall a: nat | !(ListAt(D, k) <= a < ListAt(D, k) + 4) && !(p <= a < p + PAGE_WORDS) :: Load(ram.w, a) == Load(w0, a)
    {
      ghost var u, w := Growing(v, p, k, i), ram.w;
      var b := Block(p, k, i);
      BlockPlace(p, k, i);
      FreshLacks(p, k, i);
      NodesApart(u, D, k, b);
      var found := ram.ElemFind(ListAt(D, k), b, Fresh(p, k, i));
      assert !found;   // the ASSERT of memory.c:501
      ram.ListAppend(ListAt(D, k), b, Fresh(p, k, i));
      AppendRepBut(w, ram.w, D, u, k, b);
      forall q | q in v.arenas[p := Small(k)] ensures SameHeader(w0, ram.w, q) {
        assert q in u.arenas && SameHeader(w, ram.w, q) && SameHeader(w0, w, q);
      }
      assert WithFree(u, k, u.free[k] + [b]) == Growing(v, p, k, i + 1);
      FreshFrame(D, k, p, i, w, ram.w);
    }

    // memory.c:473-479
    method FindClass(size: nat) returns (k: nat)
      requires size <= 1024 && DescsOk(ram.w, D)
      ensures k == ClassOf(size)
    {
      k := 0;
      while k < CLASSES && size > Load(ram.w, Desc(D, k))
        invariant k <= ClassOf(size)
        decreases CLASSES - k
      {
        k := k + 1;
      }
    }

    // memory.c:417-517. `page` is the address of the page the call took from palloc, if any.
    method SysMalloc(size: nat) returns (r: Pointer, ghost page: nat)
      requires Valid()
      modifies this`view, ram, machine`phys, machine.Arrays()
      ensures machine.Wired()
      ensures if size == 0 || size >= poolSize then r == NullPtr
              else Supplied(machine.L, old(machine.View()), machine.View(), kernel, PagesAsked(old(view), size), page, r)
      ensures r.NullPtr? ==> Valid() && view == old(view) && ram.w == old(ram.w) && machine.View() == old(machine.View())
      ensures r.Ptr? ==> Valid() && Allocated(D, old(view), view, old(ram.w), ram.w, r.b, size) && Chosen(old(view), view, size, page, r.b)
      ensures r.Ptr? ==> PagesKept(old(machine.View()), machine.View(), kernel, proc, old(view).arenas)
    {
      hide Allocated, Chosen, PagesKept, Supplied, Machine.Wired, Machine.View, Sound, Shaped, PagesFor;
      ShapedLists();
      page := 0;
      if !(size > 0 && size < poolSize) { return NullPtr, 0; }
      if size > 1024 {
        r, page := MallocLargeRequest(size);
      } else {
        r, page := MallocSmallRequest(size);
      }
    }

    lemma ShapedLists()
      requires Shaped()
      ensures |view.free| == CLASSES && machine.Wired()
    {
    }

    // memory.c:451-468
    method MallocLargeRequest(size: nat) returns (r: Pointer, ghost page: nat)
      requires Valid() && size > 1024
      modifies this`view, ram, machine`phys, machine.Arrays()
      ensures machine.Wired()
      ensures Supplied(machine.L, old(machine.View()), machine.View(), kernel, PagesFor(size), page, r)
      ensures r.NullPtr? ==> Valid() && view == old(view) && ram.w == old(ram.w) && machine.View() == old(machine.View())
      ensures r.Ptr? ==> Valid() && Allocated(D, old(view), view, old(ram.w), ram.w, r.b, size) && Chosen(old(view), view, size, page, r.b)
      ensures r.Ptr? ==> PagesKept(old(machine.View()), machine.View(), kernel, proc, old(view).arenas)
    {
      hide Rep, Sound, HeapOk, PagesHeld, Palloc, NewPages, Supplied, PagesKept, Allocated, Machine.Wired, Machine.View;
      var n := PagesFor(size);
      ghost var v, w, vm := view, ram.w, machine.View();
      HeapArenas(v);
      Supplies(machine.L, vm, kernel, proc, n);
      var got := machine.PallocPages(kernel, n);
      page := 0;
      if got.NullPage? { return NullPtr, 0; }
      if !got.Page? { return Stopped, 0; }
      var g := got.page;
      var p := g * PAGE_WORDS;
      PallocNewPages(machine.L, vm, kernel, proc, n);
      PallocKeepsPages(machine.L, vm, kernel, proc, v.arenas, n);
      LargePlaced(vm, machine.View(), kernel, proc, v, D, w, g, n, size);
      ghost var vm', arrays := machine.View(), machine.Arrays();
      WriteLarge(p, n);
      assert machine.Arrays() == arrays && machine.View() == vm';
      return Ptr(p + HEADER_WORDS), p;
    }

    // memory.c:456-460
    method WriteLarge(p: nat, n: nat)
      modifies this`view, ram
      ensures ram.w == HeaderWords(old(ram.w), p, n, 0, n, 1) && view == MallocLarge(old(view), p, n)
    {
      ram.w := ram.w + Zeros(p, PAGE_WORDS * n);
      ram.w := ram.w[p := 0];
      ram.w := ram.w[p + 1 := n];
      ram.w := ram.w[p + 2 := 1];
      view := MallocLarge(view, p, n);
    }

    // memory.c:472-514
    method MallocSmallRequest(size: nat) returns (r: Pointer, ghost page: nat)
      requires Valid() && 0 < size <= 1024
      modifies this`view, ram, machine`phys, machine.Arrays()
      ensures machine.Wired()
      ensures Supplied(machine.L, old(machine.View()), machine.View(), kernel, PagesAsked(old(view), size), page, r)
      ensures r.NullPtr? ==> Valid() && view == old(view) && ram.w == old(ram.w) && machine.View() == old(machine.View())
      ensures r.Ptr? ==> Valid() && Allocated(D, old(view), view, old(ram.w), ram.w, r.b, size) && Chosen(old(view), view, size, page, r.b)
      ensures r.Ptr? ==> PagesKept(old(machine.View()), machine.View(), kernel, proc, old(view).arenas)
    {
      hide Rep, Sound, HeapOk, PagesHeld, Supplied, PagesKept, Linked, RepBut, Allocated, Machine.Wired, Machine.View;
      ghost var v, w := view, ram.w;
      page := 0;
      RepFields(w, D, v);
      var k := FindClass(size);
      RepSplits(w, D, v, k);
      var empty := ram.ListEmpty(ListAt(D, k), v.free[k]);
      if empty {
        r, page := FreshBlock(k, size);
      } else {
        var b := TakeBlock(k);
        TakePlaced(v, D, k, w, ram.w, size);
        NoneSupplied(machine.L, machine.View(), kernel, Ptr(b));
        PagesKeptAlone(machine.L, machine.View(), kernel, proc, v.arenas);
        return Ptr(b), 0;
      }
    }

    // memory.c:484-512
    method FreshBlock(k: nat, ghost size: nat) returns (r: Pointer, ghost page: nat)
      requires Valid() && 0 < size <= 1024 && k == ClassOf(size) && view.free[k] == []
      modifies this`view, ram, machine`phys, machine.Arrays()
      ensures machine.Wired()
      ensures Supplied(machine.L, old(machine.View()), machine.View(), kernel, 1, page, r)
      ensures r.NullPtr? ==> Valid() && view == old(view) && ram.w == old(ram.w) && machine.View() == old(machine.View())
      ensures r.Ptr? ==> Valid() && Allocated(D, old(view), view, old(ram.w), ram.w, r.b, size) && Chosen(old(view), view, size, page, r.b)
      ensures r.Ptr? ==> PagesKept(old(machine.View()), machine.View(), kernel, proc, old(view).arenas)
    {
      hide Rep, Sound, HeapOk, PagesHeld, Palloc, NewPages, Supplied, PagesKept, Allocated, Machine.Wired, Machine.View;
      ghost var v, w, vm := view, ram.w, machine.View();
      RepFields(w, D, v);
      page := 0;
      Supplies(machine.L, vm, kernel, proc, 1);
      var got := machine.PallocPages(kernel, 1);
      if got.NullPage? { return NullPtr, 0; }
      if !got.Page? { return Stopped, 0; }
      var g := got.page;
      page := g * PAGE_WORDS;
      PallocNewPages(machine.L, vm, kernel, proc, 1);
      PallocKeepsPages(machine.L, vm, kernel, proc, v.arenas, 1);
      SmallPlaced(vm, machine.View(), kernel, proc, v, D, g, k);
      ghost var vm', arrays := machine.View(), machine.Arrays();
      var b := FirstBlock(k, g, size);
      assert machine.Arrays() == arrays && machine.View() == vm';
      return Ptr(b), page;
    }

    // memory.c:490-512: the page becomes an arena, and its first block is taken.
    method FirstBlock(k: nat, g: nat, ghost size: nat) returns (b: nat)
      requires 0 < size <= 1024 && k == ClassOf(size) && HeapOk(view) && Rep(ram.w, D, view) && view.free[k] == []
      requires Unused(view, g * PAGE_WORDS, 1) && DescsApart(D, view.arenas[g * PAGE_WORDS := Small(k)])
      modifies this`view, ram
      ensures HeapOk(view) && Rep(ram.w, D, view) && view.arenas == old(view).arenas[g * PAGE_WORDS := Small(k)]
      ensures Allocated(D, old(view), view, old(ram.w), ram.w, b, size) && Chosen(old(view), view, size, g * PAGE_WORDS, b)
    {
      hide Rep, HeapOk, Allocated, Fresh, ListOk, Within;
      ghost var v, w := view, ram.w;
      RepFields(w, D, v);
      NewArena(k, g);
      ghost var w1 := ram.w;
      FreshHead(v, g * PAGE_WORDS, k);
      b := TakeBlock(k);
      FreshPlaced(v, D, k, g * PAGE_WORDS, w, w1, ram.w, size);
    }

    // memory.c:519-564. Every free comes through; the memory manager's invariant survives it exactly
    // when the call gives no page back, or only frames that ReturnOnePhysicPage clears at their own bit.
    method SysFree(b: nat)
      requires Valid() && (b == 0 || Live(view, b))
      modifies this`view, ram, machine`phys, machine.Arrays()
      ensures b == 0 ==> Valid() && view == old(view) && ram.w == old(ram.w) && machine.View() == old(machine.View())
      ensures b != 0 ==>
                && Shaped() && view == Free(old(view), b)
                && PagesReturned(machine.L, old(machine.View()), machine.View(), kernel, old(view), b)
                && (Valid() <==> Clean(machine.L, old(machine.View()), kernel, old(view), b))
                && PagesKept(old(machine.View()), machine.View(), kernel, proc, view.arenas)
      ensures forall a: nat | LiveWord(old(view), b, a) :: Load(ram.w, a) == old(Load(ram.w, a))
      ensures StaysIn(old(view), D, old(ram.w), ram.w)
    {
      hide Rep, Sound, HeapOk, PagesHeld, LiveWord, Free, PagesReturned, Live, PagesKept, Clean, HeapWord, Machine.View, Machine.Wired;
      if b != 0 { FreeLive(b); }
    }

    // memory.c:527-561
    method FreeLive(b: nat)
      requires Valid() && Live(view, b)
      modifies this`view, ram, machine`phys, machine.Arrays()
      ensures Shaped() && view == Free(old(view), b)
      ensures PagesReturned(machine.L, old(machine.View()), machine.View(), kernel, old(view), b)
      ensures Sound(machine.L, machine.View()) <==> Clean(machine.L, old(machine.View()), kernel, old(view), b)
      ensures PagesKept(old(machine.View()), machine.View(), kernel, proc, view.arenas)
      ensures forall a: nat | LiveWord(old(view), b, a) :: Load(ram.w, a) == old(Load(ram.w, a))
      ensures StaysIn(old(view), D, old(ram.w), ram.w)
    {
      hide Rep, Sound, HeapOk, PagesHeld, LiveWord, Free, PagesReturned, Live, PagesKept, Clean, HeapWord, Machine.View, Machine.Wired,
        Extent;
      LiveHeader(ram.w, D, view, b);
      LiveAboveBase(machine.View(), kernel, proc, view, b);
      assert kernel ==> HEAP_BASE * PAGE_WORDS <= b;                          // the ASSERT of memory.c:527
      var p := ArenaOf(b);
      assert Load(ram.w, p + 2) == 1 || Load(ram.w, p + 2) == 0;              // the ASSERT of memory.c:542
      if Load(ram.w, p) == 0 && Load(ram.w, p + 2) == 1 {
        FreeLarge(b);
      } else {
        FreeSmall(b);
      }
    }

    // memory.c:543-546
    method FreeLarge(b: nat)
      requires Valid() && Live(view, b) && view.arenas[ArenaOf(b)].Large?
      modifies this`view, ram, machine`phys, machine.Arrays()
      ensures Shaped() && view == Free(old(view), b) && ram.w == old(ram.w)
      ensures PagesReturned(machine.L, old(machine.View()), machine.View(), kernel, old(view), b)
      ensures Sound(machine.L, machine.View()) <==> Clean(machine.L, old(machine.View()), kernel, old(view), b)
      ensures PagesKept(old(machine.View()), machine.View(), kernel, proc, view.arenas)
    {
      hide Rep, Sound, HeapOk, PagesHeld, LiveWord, PagesKept, RunReturnable, Pfree, Extent, Machine.View, Machine.Wired;
      ghost var v := view;
      LiveHeader(ram.w, D, v, b);
      FreeOk(v, b);
      ForgetLarge(ram.w, D, v, ArenaOf(b));
      HeapArenas(v);
      var p := ArenaOf(b);
      ReturnPages(p, Load(ram.w, p + 1), v);
      ghost var vm', arrays := machine.View(), machine.Arrays();
      view := v.(arenas := v.arenas - {p});
      assert machine.Arrays() == arrays && machine.View() == vm';
    }

    // The call of pfree: it comes through, and the heap keeps the pages of its other arenas.
    method ReturnPages(p: nat, n: nat, ghost v: HeapView)
      requires ArenasOk(v.arenas) && p in v.arenas && n == Pages(v.arenas[p]) && machine.Wired()
      requires Sound(machine.L, machine.View()) && Asks(machine.View(), kernel, proc)
      requires PagesHeld(machine.View(), kernel, proc, v.arenas)
      modifies machine`phys, machine.Arrays()
      ensures machine.Wired() && Asks(machine.View(), kernel, proc)
      ensures PagesHeld(machine.View(), kernel, proc, v.arenas - {p})
      ensures && MayAsk(old(machine.View()), kernel) && Base(kernel) <= p / PAGE_WORDS
              && Pfree(machine.L, old(machine.View()), kernel, p / PAGE_WORDS, n) == Go(machine.View())
      ensures var vm := old(machine.View());
              Sound(machine.L, machine.View()) <==> RunReturnable(machine.L, vm.phys, vm.dirs, kernel, Who(vm), p / PAGE_WORDS, n)
      ensures PagesKept(old(machine.View()), machine.View(), kernel, proc, v.arenas - {p})
    {
      hide Sound, PagesHeld, Pfree, Held, PagesKept, RunReturnable, Removable, Machine.Wired, Machine.View;
      ghost var vm := machine.View();
      ArenaPages(vm, kernel, proc, v, p);
      forall h: nat | p / PAGE_WORDS <= h < p / PAGE_WORDS + n ensures Held(vm, kernel, proc, h) {
        assert ArenaPage(v.arenas, p, h);
      }
      PfreeHeld(machine.L, vm, kernel, proc, p / PAGE_WORDS, n);
      PfreeKeepsPages(machine.L, vm, kernel, proc, v, p);
      HeldIsRemovable(machine.L, vm, kernel, proc, p / PAGE_WORDS, n);
      GuardOf(machine);
      var r := machine.PfreePages(kernel, p / PAGE_WORDS, n);
      PagesAfterFree(vm, machine.View(), kernel, proc, v, p);
    }

    // memory.c:549-560
    method FreeSmall(b: nat)
      requires Valid() && Live(view, b) && view.arenas[ArenaOf(b)].Small?
      modifies this`view, ram, machine`phys, machine.Arrays()
      ensures Shaped() && view == Free(old(view), b)
      ensures PagesReturned(machine.L, old(machine.View()), machine.View(), kernel, old(view), b)
      ensures Sound(machine.L, machine.View()) <==> Clean(machine.L, old(machine.View()), kernel, old(view), b)
      ensures PagesKept(old(machine.View()), machine.View(), kernel, proc, view.arenas)
      ensures forall a: nat | LiveWord(old(view), b, a) :: Load(ram.w, a) == old(Load(ram.w, a))
      ensures StaysIn(old(view), D, old(ram.w), ram.w)
    {
      hide Rep, Sound, HeapOk, PagesHeld, LiveWord, IsBlock, Live, PagesReturned, Free, Pfree, FreeIn, Extent, Released, WithFree,
        HeapWord, PagesKept, Clean, RunReturnable, Machine.View, Machine.Wired;
      ghost var v, vm, arrays := view, machine.View(), machine.Arrays();
      SmallFacts(v, b);
      ghost var k := v.arenas[ArenaOf(b)].k;
      FreeOk(v, b);
      var p := ArenaOf(b);
      GiveBlock(b, k, v);
      assert machine.Arrays() == arrays && machine.View() == vm;
      if Load(ram.w, p + 1) == Load(ram.w, Load(ram.w, p) + 1) {
        FullIff(v.free[k] + [b], p, k);
        ReleaseArena(b, k, v);
        FreedLast(machine.L, vm, machine.View(), kernel, v, b, k);
      } else {
        FreedOther(machine.L, vm, kernel, v, b, k);
        SameArenas(v, k, v.free[k] + [b]);
        PagesKeptAlone(machine.L, vm, kernel, proc, v.arenas);
      }
      ghost var vm' := machine.View();
      assert machine.Arrays() == arrays;
      view := Free(v, b);
      assert machine.Arrays() == arrays && machine.View() == vm';
    }

    // memory.c:553-559
    method ReleaseArena(b: nat, ghost k: nat, ghost v: HeapView)
      requires HeapOk(v) && Live(v, b) && v.arenas[ArenaOf(b)] == Small(k) && k < CLASSES && b !in v.free[k]
      requires Rep(ram.w, D, WithFree(v, k, v.free[k] + [b])) && machine.Wired()
      requires forall i: nat | i < BlockSum(k) :: Block(ArenaOf(b), k, i) in v.free[k] + [b]
      requires Sound(machine.L, machine.View()) && Asks(machine.View(), kernel, proc)
      requires PagesHeld(machine.View(), kernel, proc, v.arenas)
      modifies ram, machine`phys, machine.Arrays()
      ensures Rep(ram.w, D, Released(v, b, k)) && machine.Wired() && Asks(machine.View(), kernel, proc)
      ensures PagesHeld(machine.View(), kernel, proc, Released(v, b, k).arenas)
      ensures var p := ArenaOf(b);
              && MayAsk(old(machine.View()), kernel) && Base(kernel) <= p / PAGE_WORDS
              && Pfree(machine.L, old(machine.View()), kernel, p / PAGE_WORDS, 1) == Go(machine.View())
      ensures var vm := old(machine.View());
              Sound(machine.L, machine.View()) <==>
              RunReturnable(machine.L, vm.phys, vm.dirs, kernel, Who(vm), ArenaOf(b) / PAGE_WORDS, 1)
      ensures PagesKept(old(machine.View()), machine.View(), kernel, proc, Released(v, b, k).arenas)
      ensures forall a: nat | LiveWord(v, b, a) :: Load(ram.w, a) == old(Load(ram.w, a))
      ensures StaysIn(v, D, old(ram.w), ram.w)
    {
      hide Rep, Sound, PagesHeld, LiveWord, IsBlock, Within, Pfree, ListOk, Occupied, Block, Without, PagesKept, RunReturnable, HeapWord,
        Machine.View, Machine.Wired;
      var p := ArenaOf(b);
      ghost var w := ram.w;
      HeapFields(w, D, WithFree(v, k, v.free[k] + [b]), v);
      RemoveBlocks(k, p, b, v);
      RemovalKeepsLive(v, D, k, b, w, ram.w);
      RemovalStaysIn(v, D, k, b, w, w, ram.w);
      ReturnPages(p, 1, v);
    }

    // memory.c:549-550
    method GiveBlock(b: nat, ghost k: nat, ghost v: HeapView)
      requires HeapOk(v) && Live(v, b) && v.arenas[ArenaOf(b)] == Small(k) && k < CLASSES && Rep(ram.w, D, v)
      modifies ram
      ensures Rep(ram.w, D, WithFree(v, k, v.free[k] + [b]))
      ensures var p := ArenaOf(b);
              && Load(ram.w, p) == Desc(D, k) && Load(ram.w, Desc(D, k) + 1) == BlockSum(k)
              && Load(ram.w, p + 1) == |FreeIn(v.free[k] + [b], p, k)|
      ensures forall a: nat | LiveWord(v, b, a) :: Load(ram.w, a) == old(Load(ram.w, a))
      ensures StaysIn(v, D, old(ram.w), ram.w)
    {
      hide Rep, RepBut, Linked, HeapOk, LiveWord, Shape, IsBlock, Live, Within, ListOk, DescsApart, DescsOk, FreeIn, Apart, Nodes, HeapWord;
      ghost var w := ram.w;
      LiveHeader(w, D, v, b);
      SmallFacts(v, b);
      RepFields(w, D, v);
      RepSplits(w, D, v, k);
      NodesApart(v, D, k, b);
      var p := ArenaOf(b);
      ram.ListAppend(Load(ram.w, p) + 2, b, v.free[k]);
      Given(w, ram.w, D, v, k, b);
      ram.w := ram.w[p + 1 := Load(ram.w, p + 1) + 1];
    }

    // memory.c:553-558
    method RemoveBlocks(ghost k: nat, p: nat, ghost b: nat, ghost v: HeapView)
      requires k < CLASSES && |v.free| == CLASSES && p == ArenaOf(b) && p in v.arenas && v.arenas[p] == Small(k) && b !in v.free[k]
      requires Rep(ram.w, D, WithFree(v, k, v.free[k] + [b]))
      requires forall i: nat | i < BlockSum(k) :: Block(p, k, i) in v.free[k] + [b]
      modifies ram
      ensures Rep(ram.w, D, Released(v, b, k))
      ensures forall a: nat | !Within(Nodes(ListAt(D, k), v.free[k] + [b]), a) :: Load(ram.w, a) == old(Load(ram.w, a))
    {
      hide Linked, ListOk, Shape, Within, Drop, Rep, RepBut, IsBlock, Released;
      ghost var w0, f := ram.w, v.free[k] + [b];
      ghost var u := WithFree(v, k, f);
      RepSplits(w0, D, u, k);
      ListFacts(u, k);
      SmallHeader(w0, D, u, p, k);
      SmallCounts(w0, D, u);
      var i := 0;
      DropStart(f, p, k);
      while i < Load(ram.w, Load(ram.w, p) + 1)
        invariant i <= BlockSum(k)
        invariant Load(ram.w, p) == Desc(D, k)
        invariant Load(ram.w, Desc(D, k)) == 4 * BlockWords(k) && Load(ram.w, Desc(D, k) + 1) == BlockSum(k)
        invariant RepBut(ram.w, D, WithFree(v, k, Drop(f, p, k, i)), k) && ListOk(WithFree(v, k, Drop(f, p, k, i)), k)
        invariant Linked(ram.w, ListAt(D, k), Drop(f, p, k, i))
        invariant forall q | q in v.arenas :: SameHeader(w0, ram.w, q)
        invariant forall a: nat | !Within(Nodes(ListAt(D, k), f), a) :: Load(ram.w, a) == Load(w0, a)
      {
        RemoveOne(k, p, i, v, f, w0);
        i := i + 1;
        ButFields(ram.w, D, WithFree(v, k, Drop(f, p, k, i)), k);
        assert SameHeader(w0, ram.w, p);
      }
      DropAll(f, p, k);
      forall q | q in v.arenas && q != p && v.arenas[q] == Small(k) ensures Load(ram.w, q + 1) == Count(v, q) {
        assert SameHeader(w0, ram.w, q);
        CountAdded(v.free[k], b, k, q);
      }
      ForgetRep(ram.w, D, v, k, p, b);
    }

    method RemoveOne(ghost k: nat, p: nat, i: nat, ghost v: HeapView, ghost f: seq<nat>, ghost w0: Memory)
      requires k < CLASSES && |v.free| == CLASSES && i < BlockSum(k) && p % PAGE_WORDS == 0 && p in v.arenas && v.arenas[p] == Small(k)
      requires Distinct(f) && Block(p, k, i) in f
      requires Load(ram.w, p) == Desc(D, k) && Load(ram.w, Desc(D, k)) == 4 * BlockWords(k)
      requires RepBut(ram.w, D, WithFree(v, k, Drop(f, p, k, i)), k) && ListOk(WithFree(v, k, Drop(f, p, k, i)), k)
      requires Linked(ram.w, ListAt(D, k), Drop(f, p, k, i))
      requires forall q | q in v.arenas :: SameHeader(w0, ram.w, q)
      requires forall a: nat | !Within(Nodes(ListAt(D, k), f), a) :: Load(ram.w, a) == Load(w0, a)
      modifies ram
      ensures RepBut(ram.w, D, WithFree(v, k, Drop(f, p, k, i + 1)), k) && ListOk(WithFree(v, k, Drop(f, p, k, i + 1)), k)
      ensures Linked(ram.w, ListAt(D, k), Drop(f, p, k, i + 1))
      ensures forall q | q in v.arenas :: SameHeader(w0, ram.w, q)
      ensures forall a: nat | !Within(Nodes(ListAt(D, k), f), a) :: Load(ram.w, a) == Load(w0, a)
    {
      hide RepBut, Linked, ListOk, Within, BlockSum, Nodes, Apart, Minus, Block;
      ghost var g, w := Drop(f, p, k, i), ram.w;
      ghost var u := WithFree(v, k, g);
      var desc := Load(ram.w, p);
      var e := p + HEADER_WORDS + i * (Load(ram.w, desc) / 4);
      BlockAddress(p, k, i);
      StillThere(f, p, k, i);
      var found := ram.ElemFind(desc + 2, e, g);
      assert found;   // the ASSERT of memory.c:556
      ghost var j: nat :| j < |g| && g[j] == e;
      MinusAt(g, j);
      ram.ListRemove(e, ListAt(D, k), g, j);
      RemoveRepBut(w, ram.w, D, u, k, e);
      assert Drop(f, p, k, i + 1) == Minus(g, e);
      assert WithFree(u, k, Minus(g, e)) == WithFree(v, k, Minus(g, e));
      forall q | q in v.arenas ensures SameHeader(w0, ram.w, q) { assert q in u.arenas && SameHeader(w, ram.w, q) && SameHeader(w0, w, q); }
      forall a: nat | !Within(Nodes(ListAt(D, k), f), a) ensures Load(ram.w, a) == Load(w0, a) { NodesOfPart(ListAt(D, k), f, g, a); }
    }
  }

  // Appending to a list of p's own blocks touches the sentinels and p's page only.
  lemma FreshFrame(D: nat, k: nat, p: nat, i: nat, w: Memory, w': Memory)
    requires k < CLASSES && i < BlockSum(k) && p % PAGE_WORDS == 0
    requires var b := Block(p, k, i);
             forall a: nat | !Within(Nodes(ListAt(D, k), Fresh(p, k, i)), a) && a != b && a != b + 1 :: Load(w', a) == Load(w, a)
    ensures forall a: nat | !(ListAt(D, k) <= a < ListAt(D, k) + 4) && !(p <= a < p + PAGE_WORDS) :: Load(w', a) == Load(w, a)
  {
    hide Within, Nodes, Fresh, Block, Load;
    BlockInPage(p, k, i);
    forall a: nat | !(ListAt(D, k) <= a < ListAt(D, k) + 4) && !(p <= a < p + PAGE_WORDS)
      ensures Load(w', a) == Load(w, a)
    {
      FreshNodes(D, k, p, i, a);
    }
  }

  lemma BlockInPage(p: nat, k: nat, i: nat)
    requires k < CLASSES && i < BlockSum(k) && p % PAGE_WORDS == 0
    ensures p <= Block(p, k, i) && Block(p, k, i) + 1 < p + PAGE_WORDS
  {
    BlockPlace(p, k, i);
  }

  lemma HeadersRead(w: Memory, D: nat, v: HeapView)
    requires Rep(w, D, v)
    ensures forall q, k: nat | q in v.arenas && v.arenas[q] == Small(k) :: Load(w, q + 1) == Count(v, q)
  {
    forall q, k: nat | q in v.arenas && v.arenas[q] == Small(k) ensures Load(w, q + 1) == Count(v, q) {
      assert HeaderAt(w, D, q, v.arenas[q], Count(v, q));
    }
  }

  lemma SameHeaders(w: Memory, arenas: map<nat, Kind>)
    ensures forall q | q in arenas :: SameHeader(w, w, q)
  {
  }

  // What the block's words and the rest hold after the clearing and the count.
  lemma TakenAt(w1: Memory, b: nat, k: nat)
    requires k < CLASSES && IsBlock(k, b)
    ensures forall a: nat | b <= a < b + BlockWords(k) :: Load(TakenWords(w1, b, k), a) == 0
    ensures forall a: nat | !(b <= a < b + BlockWords(k)) && a != ArenaOf(b) + 1 :: Load(TakenWords(w1, b, k), a) == Load(w1, a)
  {
    BlockBack(k, b);
  }

  lemma RepFields(w: Memory, D: nat, v: HeapView)
    requires Rep(w, D, v)
    ensures DescsOk(w, D) && |v.free| == CLASSES && DescsApart(D, v.arenas)
  {
  }

  // One new live block of at least size bytes, all zero; the words of every other live block, and
  // everything outside the heap, as before.
  ghost predicate Allocated(D: nat, v: HeapView, v': HeapView, w: Memory, w': Memory, b: nat, size: nat)
  {
    && OneMore(v, v', b) && size <= 4 * Extent(v', b)
    && (forall a: nat | b <= a < b + Extent(v', b) :: Load(w', a) == 0)
    && (forall a: nat | LiveWord(v, 0, a) :: Load(w', a) == Load(w, a)) && StaysIn(v', D, w, w')
  }

  // The block is the one the size calls for.
  predicate Chosen(v: HeapView, v': HeapView, size: nat, page: nat, b: nat)
    requires |v.free| == CLASSES
  {
    if size <= 1024 then v' == MallocSmall(v, ClassOf(size), page) && b == MallocSmallAddress(v, ClassOf(size), page)
    else v' == MallocLarge(v, page, PagesFor(size)) && b == page + HEADER_WORDS
  }

  // A small request on a block of the list, and on the first block of a fresh page.
  lemma TakePlaced(v: HeapView, D: nat, k: nat, w: Memory, w': Memory, size: nat)
    requires HeapOk(v) && DescsApart(D, v.arenas) && size <= 1024 && k == ClassOf(size) && v.free[k] != []
    requires var b := v.free[k][0];
             && (forall a: nat | b <= a < b + BlockWords(k) :: Load(w', a) == 0)
             && (forall a: nat | !Within(Nodes(ListAt(D, k), v.free[k]), a) && !(b <= a < b + BlockWords(k)) && a != ArenaOf(b) + 1 ::
                   Load(w', a) == Load(w, a))
    ensures HeapOk(Take(v, k)) && Allocated(D, v, Take(v, k), w, w', v.free[k][0], size)
  {
    MallocSmallOk(v, k, 0);
    TakeKeepsLive(v, D, k, w, w');
    TakeStaysIn(v, D, k, w, w');
    hide HeapOk, OneMore, LiveWord, Extent, Live, Within, StaysIn;
  }

  lemma FreshPlaced(v: HeapView, D: nat, k: nat, p: nat, w: Memory, w1: Memory, w': Memory, size: nat)
    requires HeapOk(v) && DescsApart(D, v.arenas) && size <= 1024 && k == ClassOf(size) && v.free[k] == [] && Unused(v, p, 1) && p % PAGE_WORDS == 0
    requires forall a: nat | !(ListAt(D, k) <= a < ListAt(D, k) + 4) && !(p <= a < p + PAGE_WORDS) :: Load(w1, a) == Load(w, a)
    requires var b := Block(p, k, 0);
             && (forall a: nat | b <= a < b + BlockWords(k) :: Load(w', a) == 0)
             && (forall a: nat | !Within(Nodes(ListAt(D, k), Grow(v, p, k).free[k]), a) && !(b <= a < b + BlockWords(k)) && a != ArenaOf(b) + 1 ::
                   Load(w', a) == Load(w1, a))
    ensures HeapOk(MallocSmall(v, k, p)) && Allocated(D, v, MallocSmall(v, k, p), w, w', Block(p, k, 0), size)
  {
    MallocSmallOk(v, k, p);
    FreshKeepsLive(v, D, k, p, w, w1, w');
    FreshStaysIn(v, D, k, p, w, w1, w');
    hide HeapOk, OneMore, LiveWord, Extent, Live, Within, Grow, Take, StaysIn;
  }

  lemma TakeStaysIn(v: HeapView, D: nat, k: nat, w: Memory, w': Memory)
    requires HeapOk(v) && k < CLASSES && v.free[k] != []
    requires var b := v.free[k][0];
             forall a: nat | !Within(Nodes(ListAt(D, k), v.free[k]), a) && !(b <= a < b + BlockWords(k)) && a != ArenaOf(b) + 1 ::
               Load(w', a) == Load(w, a)
    ensures StaysIn(Take(v, k), D, w, w')
  {
    var b, v' := v.free[k][0], Take(v, k);
    assert ListOk(v, k) && b in v.free[k] && v.free[k := v.free[k]] == v.free;
    BlockBack(k, b);
    hide Within, Nodes, IsBlock, ListOk, HeapWord;
    forall a: nat | !HeapWord(v', D, a) ensures Load(w', a) == Load(w, a) {
      NodeIsHeap(v, D, k, v.free[k], a);
      SameHeapWord(v, v', D, a);
      InArena(v', D, ArenaOf(b), a);
    }
  }

  lemma SameHeapWord(v: HeapView, v': HeapView, D: nat, a: nat)
    requires v'.arenas == v.arenas
    ensures HeapWord(v', D, a) <==> HeapWord(v, D, a)
  {
  }

  lemma FreshStaysIn(v: HeapView, D: nat, k: nat, p: nat, w: Memory, w1: Memory, w': Memory)
    requires |v.free| == CLASSES && k < CLASSES && v.free[k] == [] && p % PAGE_WORDS == 0
    requires forall a: nat | !(ListAt(D, k) <= a < ListAt(D, k) + 4) && !(p <= a < p + PAGE_WORDS) :: Load(w1, a) == Load(w, a)
    requires var b := Block(p, k, 0);
             forall a: nat | !Within(Nodes(ListAt(D, k), Grow(v, p, k).free[k]), a) && !(b <= a < b + BlockWords(k)) && a != ArenaOf(b) + 1 ::
               Load(w', a) == Load(w1, a)
    ensures StaysIn(MallocSmall(v, k, p), D, w, w')
  {
    BlockPlace(p, k, 0);
    assert [] + Fresh(p, k, BlockSum(k)) == Fresh(p, k, BlockSum(k));
    var v' := MallocSmall(v, k, p);
    assert v'.arenas == v.arenas[p := Small(k)] && Grow(v, p, k).free[k] == Fresh(p, k, BlockSum(k));
    hide Within, Nodes, Block, Fresh, Grow, Take;
    forall a: nat | !HeapWord(v', D, a) ensures Load(w', a) == Load(w, a) {
      InArena(v', D, p, a);
      FreshNodes(D, k, p, BlockSum(k), a);
    }
  }

  // A large request on pages palloc just supplied.
  lemma LargePlaced(vm: Vm, vm': Vm, kernel: bool, proc: nat, v: HeapView, D: nat, w: Memory, g: nat, n: nat, size: nat)
    requires HeapOk(v) && Rep(w, D, v) && DescsPlaced(kernel, D) && PagesHeld(vm, kernel, proc, v.arenas)
    requires NewPages(vm, vm', kernel, proc, g, n) && 1 <= n && n == PagesFor(size)
    ensures var p := g * PAGE_WORDS;
            var v', w' := MallocLarge(v, p, n), HeaderWords(w, p, n, 0, n, 1);
            && HeapOk(v') && Rep(w', D, v') && PagesHeld(vm', kernel, proc, v'.arenas) && Asks(vm', kernel, proc)
            && Allocated(D, v, v', w, w', p + HEADER_WORDS, size)
  {
    hide Rep, PagesHeld, NewPages, HeapOk, OneMore, LiveWord, Live;
    var p := g * PAGE_WORDS;
    HeapArenas(v);
    RepFields(w, D, v);
    NewPagesAsk(vm, vm', kernel, proc, g, n);
    NewPagesUnused(vm, vm', kernel, proc, v, g, n);
    NewPagesHeld(vm, vm', kernel, proc, v, g, Large(n));
    NewPagesApart(vm, vm', kernel, proc, v, D, g, Large(n));
    MallocLargeOk(v, p, n);
    LargeRep(w, D, v, p, n);
    HeaderWordsAt(w, p, n, 0, n, 1);
    forall a: nat | LiveWord(v, 0, a) ensures Load(HeaderWords(w, p, n, 0, n, 1), a) == Load(w, a) {
      LiveIsOutside(v, 0, p, n, a);
    }
    forall a: nat | !HeapWord(MallocLarge(v, p, n), D, a) ensures Load(HeaderWords(w, p, n, 0, n, 1), a) == Load(w, a) {
      InArena(MallocLarge(v, p, n), D, p, a);
    }
  }

  lemma NewPagesAsk(vm: Vm, vm': Vm, kernel: bool, proc: nat, g: nat, n: nat)
    requires NewPages(vm, vm', kernel, proc, g, n)
    ensures Asks(vm', kernel, proc)
  {
  }

  lemma SmallPlaced(vm: Vm, vm': Vm, kernel: bool, proc: nat, v: HeapView, D: nat, g: nat, k: nat)
    requires HeapOk(v) && DescsPlaced(kernel, D) && DescsApart(D, v.arenas) && PagesHeld(vm, kernel, proc, v.arenas)
    requires NewPages(vm, vm', kernel, proc, g, 1) && k < CLASSES
    ensures Unused(v, g * PAGE_WORDS, 1) && DescsApart(D, v.arenas[g * PAGE_WORDS := Small(k)])
    ensures PagesHeld(vm', kernel, proc, v.arenas[g * PAGE_WORDS := Small(k)]) && Asks(vm', kernel, proc)
  {
    NewPagesUnused(vm, vm', kernel, proc, v, g, 1);
    NewPagesHeld(vm, vm', kernel, proc, v, g, Small(k));
    NewPagesApart(vm, vm', kernel, proc, v, D, g, Small(k));
  }

  lemma FreshHead(v: HeapView, p: nat, k: nat)
    requires |v.free| == CLASSES && k < CLASSES && v.free[k] == []
    ensures Grow(v, p, k).free[k] != [] && Grow(v, p, k).free[k][0] == Block(p, k, 0)
  {
    assert [] + Fresh(p, k, BlockSum(k)) == Fresh(p, k, BlockSum(k));
  }

  // Taking a block from a list leaves every live block as it was.
  lemma TakeKeepsLive(v: HeapView, D: nat, k: nat, w: Memory, w': Memory)
    requires HeapOk(v) && DescsApart(D, v.arenas) && k < CLASSES && v.free[k] != []
    requires var b := v.free[k][0];
             forall a: nat | !Within(Nodes(ListAt(D, k), v.free[k]), a) && !(b <= a < b + BlockWords(k)) && a != ArenaOf(b) + 1 ::
               Load(w', a) == Load(w, a)
    ensures forall a: nat | LiveWord(v, 0, a) :: Load(w', a) == Load(w, a)
  {
    var b := v.free[k][0];
    assert ListOk(v, k) && b in v.free[k];
    forall a: nat | LiveWord(v, 0, a) ensures Load(w', a) == Load(w, a) {
      LiveIsNoNode(v, D, 0, k, v.free[k], a);
      LiveIsNoFreeBlock(v, 0, k, b, a);
      LiveIsNoHeader(v, 0, ArenaOf(b), a);
    }
  }

  // Nor do the set-up of a fresh page and the taking of its first block.
  lemma FreshKeepsLive(v: HeapView, D: nat, k: nat, p: nat, w: Memory, w1: Memory, w': Memory)
    requires HeapOk(v) && DescsApart(D, v.arenas) && k < CLASSES && v.free[k] == [] && Unused(v, p, 1) && p % PAGE_WORDS == 0
    requires forall a: nat | !(ListAt(D, k) <= a < ListAt(D, k) + 4) && !(p <= a < p + PAGE_WORDS) :: Load(w1, a) == Load(w, a)
    requires var b := Block(p, k, 0);
             forall a: nat | !Within(Nodes(ListAt(D, k), Grow(v, p, k).free[k]), a) && !(b <= a < b + BlockWords(k)) && a != ArenaOf(b) + 1 ::
               Load(w', a) == Load(w1, a)
    ensures forall a: nat | LiveWord(v, 0, a) :: Load(w', a) == Load(w, a)
  {
    BlockPlace(p, k, 0);
    assert [] + Fresh(p, k, BlockSum(k)) == Fresh(p, k, BlockSum(k));
    forall a: nat | LiveWord(v, 0, a) ensures Load(w', a) == Load(w, a) {
      LiveIsOutside(v, 0, p, 1, a);
      LiveIsNoNode(v, D, 0, k, [], a);
      assert a != ListAt(D, k) && a != ListAt(D, k) + 1 && a != ListAt(D, k) + 2 && a != ListAt(D, k) + 3 by {
        var ns := Nodes(ListAt(D, k), []);
        assert ns == [ListAt(D, k), ListAt(D, k) + 2];
      }
      FreshNodes(D, k, p, BlockSum(k), a);
    }
  }

  lemma FreshNodes(D: nat, k: nat, p: nat, i: nat, a: nat)
    requires k < CLASSES && i <= BlockSum(k) && p % PAGE_WORDS == 0
    requires !(ListAt(D, k) <= a < ListAt(D, k) + 4) && !(p <= a < p + PAGE_WORDS)
    ensures !Within(Nodes(ListAt(D, k), Fresh(p, k, i)), a)
  {
    var s := Fresh(p, k, i);
    forall n: nat | n < i ensures p <= s[n] && s[n] + 1 < p + PAGE_WORDS { BlockInPage(p, k, n); }
    hide Fresh, Block, BlockSum;
    assert forall x | x in Nodes(ListAt(D, k), s) :: x in s || x == ListAt(D, k) || x == ListAt(D, k) + 2;
  }

  // ----- freeing

  // What sys_free passes to pfree: nothing, or exactly the pages of the block's arena.
  ghost predicate PagesReturned(L: Layout, vm: Vm, vm': Vm, kernel: bool, v: HeapView, b: nat)
    requires |v.free| == CLASSES && Live(v, b)
  {
    var p := ArenaOf(b);
    if p in Free(v, b).arenas then vm' == vm
    else MayAsk(vm, kernel) && Base(kernel) <= p / PAGE_WORDS && Pfree(L, vm, kernel, p / PAGE_WORDS, Pages(v.arenas[p])) == Go(vm')
  }

  // The call gives back no page, or only frames that go back to their own bits.
  ghost predicate Clean(L: Layout, vm: Vm, kernel: bool, v: HeapView, b: nat)
    requires |v.free| == CLASSES && Live(v, b)
  {
    var p := ArenaOf(b);
    p in Free(v, b).arenas || RunReturnable(L, vm.phys, vm.dirs, kernel, Who(vm), p / PAGE_WORDS, Pages(v.arenas[p]))
  }

  lemma LiveAboveBase(vm: Vm, kernel: bool, proc: nat, v: HeapView, b: nat)
    requires HeapOk(v) && Live(v, b) && PagesHeld(vm, kernel, proc, v.arenas)
    ensures Base(kernel) * PAGE_WORDS <= b
  {
    var p: nat := ArenaOf(b);
    assert 1 <= Pages(v.arenas[p]);
    assert ArenaPage(v.arenas, p, p / PAGE_WORDS);
  }

  lemma EmptyHeap(vm: Vm, kernel: bool, proc: nat)
    ensures HeapOk(HeapSpec.EMPTY) && PagesHeld(vm, kernel, proc, HeapSpec.EMPTY.arenas)
  {
  }

  lemma HeapArenas(v: HeapView)
    requires HeapOk(v)
    ensures ArenasOk(v.arenas) && |v.free| == CLASSES
  {
  }

  lemma GuardOf(machine: Machine)
    requires machine.Wired()
    ensures machine.View().guard == machine.guard
  {
  }

  // The header tells the two kinds of arena apart: a descriptor is never at address 0.
  lemma LiveHeader(w: Memory, D: nat, v: HeapView, b: nat)
    requires Rep(w, D, v) && Live(v, b)
    ensures var p := ArenaOf(b);
            && (Load(w, p) == 0 && Load(w, p + 2) == 1 <==> v.arenas[p].Large?)
            && (v.arenas[p].Large? ==> Load(w, p + 1) == Pages(v.arenas[p]))
            && (v.arenas[p].Small? ==> Load(w, p) == Desc(D, v.arenas[p].k))
            && (Load(w, p + 2) == 1 || Load(w, p + 2) == 0) && (v.arenas[p].Large? || v.arenas[p].Small?)
  {
    var p := ArenaOf(b);
    assert HeaderAt(w, D, p, v.arenas[p], Count(v, p));
  }

  lemma SmallFacts(v: HeapView, b: nat)
    requires HeapOk(v) && Live(v, b) && v.arenas[ArenaOf(b)].Small?
    ensures |v.free| == CLASSES && ArenaOf(b) in v.arenas
    ensures var k := v.arenas[ArenaOf(b)].k; |v.free| == CLASSES && k < CLASSES && IsBlock(k, b) && b !in v.free[k]
  {
  }

  // The two ends of sys_free for a small block.
  lemma FreedLast(L: Layout, vm: Vm, vm': Vm, kernel: bool, v: HeapView, b: nat, k: nat)
    requires HeapOk(v) && Live(v, b) && v.arenas[ArenaOf(b)] == Small(k) && k < CLASSES
    requires |FreeIn(v.free[k] + [b], ArenaOf(b), k)| == BlockSum(k)
    requires var g := ArenaOf(b) / PAGE_WORDS; MayAsk(vm, kernel) && Base(kernel) <= g && Pfree(L, vm, kernel, g, 1) == Go(vm')
    ensures Free(v, b) == Released(v, b, k) && PagesReturned(L, vm, vm', kernel, v, b)
    ensures Clean(L, vm, kernel, v, b) <==> RunReturnable(L, vm.phys, vm.dirs, kernel, Who(vm), ArenaOf(b) / PAGE_WORDS, 1)
  {
  }

  lemma FreedOther(L: Layout, vm: Vm, kernel: bool, v: HeapView, b: nat, k: nat)
    requires HeapOk(v) && Live(v, b) && v.arenas[ArenaOf(b)] == Small(k) && k < CLASSES
    requires |FreeIn(v.free[k] + [b], ArenaOf(b), k)| != BlockSum(k)
    ensures Free(v, b) == WithFree(v, k, v.free[k] + [b]) && PagesReturned(L, vm, vm, kernel, v, b) && Clean(L, vm, kernel, v, b)
  {
  }

  lemma SameArenas(v: HeapView, k: nat, f: seq<nat>)
    requires k < |v.free|
    ensures WithFree(v, k, f).arenas == v.arenas
  {
  }

  lemma HeapFields(w: Memory, D: nat, u: HeapView, v: HeapView)
    requires Rep(w, D, u) && v.arenas == u.arenas
    ensures ArenasOk(v.arenas) && DescsApart(D, v.arenas)
  {
  }

  lemma SmallHeader(w: Memory, D: nat, v: HeapView, p: nat, k: nat)
    requires Rep(w, D, v) && p in v.arenas && v.arenas[p] == Small(k) && k < CLASSES
    ensures Load(w, p) == Desc(D, k) && Load(w, Desc(D, k)) == 4 * BlockWords(k) && Load(w, Desc(D, k) + 1) == BlockSum(k) && p % PAGE_WORDS == 0
  {
    assert HeaderAt(w, D, p, v.arenas[p], Count(v, p));
  }

  lemma SmallCounts(w: Memory, D: nat, v: HeapView)
    requires Rep(w, D, v)
    ensures forall q | q in v.arenas :: q % PAGE_WORDS == 0
    ensures forall q | q in v.arenas && v.arenas[q].Small? :: Load(w, q + 1) == Count(v, q)
  {
    forall q | q in v.arenas ensures q % PAGE_WORDS == 0 && HeaderAt(w, D, q, v.arenas[q], Count(v, q)) { }
  }

  lemma ButFields(w: Memory, D: nat, v: HeapView, k: nat)
    requires RepBut(w, D, v, k) && k < CLASSES
    ensures Load(w, Desc(D, k)) == 4 * BlockWords(k) && Load(w, Desc(D, k) + 1) == BlockSum(k)
  {
  }

  lemma ListFacts(v: HeapView, k: nat)
    requires |v.free| == CLASSES && k < CLASSES && ListOk(v, k)
    ensures Distinct(v.free[k]) && forall x | x in v.free[k] :: IsBlock(k, x)
  {
  }

  lemma DropStart(f: seq<nat>, p: nat, k: nat)
    requires k < CLASSES
    ensures Drop(f, p, k, 0) == f
  {
  }

  lemma BlockAddress(p: nat, k: nat, i: nat)
    requires k < CLASSES
    ensures p + HEADER_WORDS + i * (4 * BlockWords(k) / 4) == Block(p, k, i)
  {
  }

  // The next block to remove has not been removed yet.
  lemma StillThere(f: seq<nat>, p: nat, k: nat, i: nat)
    requires k < CLASSES && i < BlockSum(k) && Distinct(f) && Block(p, k, i) in f
    ensures Distinct(Drop(f, p, k, i)) && Block(p, k, i) in Drop(f, p, k, i)
    ensures forall x | x in Drop(f, p, k, i) :: x in f
  {
    DropMembers(f, p, k, i);
    forall n: nat | n < i ensures Block(p, k, n) != Block(p, k, i) { BlockStrict(p, k, n, i); }
  }

  lemma NodesOfPart(l: nat, f: seq<nat>, g: seq<nat>, a: nat)
    requires !Within(Nodes(l, f), a) && forall x | x in g :: x in f
    ensures !Within(Nodes(l, g), a)
  {
    var nf, ng := Nodes(l, f), Nodes(l, g);
    assert l in nf && l + 2 in nf by { assert nf[0] == l && nf[|nf| - 1] == l + 2; }
    forall x | x in ng ensures x in nf {
      if x in g { assert x in f; } else { assert x == l || x == l + 2; }
    }
  }

  // The append and the count together.
  lemma Given(w: Memory, w1: Memory, D: nat, v: HeapView, k: nat, b: nat)
    requires HeapOk(v) && Rep(w, D, v) && k < CLASSES && Live(v, b) && v.arenas[ArenaOf(b)] == Small(k)
    requires Linked(w1, ListAt(D, k), v.free[k] + [b])
    requires forall a: nat | !Within(Nodes(ListAt(D, k), v.free[k]), a) && a != b && a != b + 1 :: Load(w1, a) == Load(w, a)
    ensures var p := ArenaOf(b);
            var w2 := w1[p + 1 := Load(w1, p + 1) + 1];
            && Rep(w2, D, WithFree(v, k, v.free[k] + [b]))
            && Load(w2, p) == Desc(D, k) && Load(w2, Desc(D, k) + 1) == BlockSum(k)
            && Load(w2, p + 1) == |FreeIn(v.free[k] + [b], p, k)|
            && (forall a: nat | LiveWord(v, b, a) :: Load(w2, a) == Load(w, a)) && StaysIn(v, D, w, w2)
  {
    hide Rep, Linked, HeapOk, LiveWord, IsBlock, Within, FreeIn, Nodes, ArenaOf, BlockSum, DescsApart, StaysIn;
    var p := ArenaOf(b);
    SmallFacts(v, b);
    RepFields(w, D, v);
    GiveRep(w, w1, D, v, k, b);
    GiveKeepsLive(v, D, k, b, w, w1, Load(w1, p + 1) + 1);
    GiveStaysIn(v, D, k, b, w, w1, Load(w1, p + 1) + 1);
    SmallHeader(w1[p + 1 := Load(w1, p + 1) + 1], D, WithFree(v, k, v.free[k] + [b]), p, k);
  }

  // The list with b on it is a list of the arena's blocks, so its nodes are words of the heap.
  lemma GivenList(v: HeapView, k: nat, b: nat)
    requires HeapOk(v) && k < CLASSES && Live(v, b) && v.arenas[ArenaOf(b)] == Small(k)
    ensures ListOk(v, k) && v.free[k := v.free[k]] == v.free && ListOk(v.(free := v.free[k := v.free[k] + [b]]), k)
    ensures ArenaOf(b) + HEADER_WORDS <= b && b + 2 <= ArenaOf(b) + PAGE_WORDS
  {
    BlockBack(k, b);
  }

  lemma GiveStaysIn(v: HeapView, D: nat, k: nat, b: nat, w: Memory, w1: Memory, c: nat)
    requires HeapOk(v) && k < CLASSES && Live(v, b) && v.arenas[ArenaOf(b)] == Small(k)
    requires forall a: nat | !Within(Nodes(ListAt(D, k), v.free[k]), a) && a != b && a != b + 1 :: Load(w1, a) == Load(w, a)
    ensures StaysIn(v, D, w, w1[ArenaOf(b) + 1 := c])
  {
    GivenList(v, k, b);
    hide Within, Nodes, ListOk, HeapWord, ArenaOf, HeapOk;
    forall a: nat | !HeapWord(v, D, a) ensures Load(w1[ArenaOf(b) + 1 := c], a) == Load(w, a) {
      NodeIsHeap(v, D, k, v.free[k], a);
      InArena(v, D, ArenaOf(b), a);
    }
  }

  lemma RemovalStaysIn(v: HeapView, D: nat, k: nat, b: nat, w0: Memory, w: Memory, w': Memory)
    requires HeapOk(v) && k < CLASSES && Live(v, b) && v.arenas[ArenaOf(b)] == Small(k) && StaysIn(v, D, w0, w)
    requires forall a: nat | !Within(Nodes(ListAt(D, k), v.free[k] + [b]), a) :: Load(w', a) == Load(w, a)
    ensures StaysIn(v, D, w0, w')
  {
    GivenList(v, k, b);
    hide Within, Nodes, ListOk, HeapWord, ArenaOf, HeapOk;
    forall a: nat | !HeapWord(v, D, a) ensures Load(w', a) == Load(w0, a) {
      NodeIsHeap(v, D, k, v.free[k] + [b], a);
    }
  }

  // Putting b on its list and counting it touches no other live block.
  lemma GiveKeepsLive(v: HeapView, D: nat, k: nat, b: nat, w: Memory, w1: Memory, c: nat)
    requires HeapOk(v) && DescsApart(D, v.arenas) && k < CLASSES && Live(v, b) && v.arenas[ArenaOf(b)] == Small(k)
    requires forall a: nat | !Within(Nodes(ListAt(D, k), v.free[k]), a) && a != b && a != b + 1 :: Load(w1, a) == Load(w, a)
    ensures forall a: nat | LiveWord(v, b, a) :: Load(w1[ArenaOf(b) + 1 := c], a) == Load(w, a)
  {
    forall a: nat | LiveWord(v, b, a) ensures Load(w1[ArenaOf(b) + 1 := c], a) == Load(w, a) {
      LiveIsNoNode(v, D, b, k, v.free[k], a);
      LiveIsNoNode(v, D, b, k, [b], a);
      assert Nodes(ListAt(D, k), [b])[1] == b;
      LiveIsNoHeader(v, b, ArenaOf(b), a);
    }
  }

  lemma RemovalKeepsLive(v: HeapView, D: nat, k: nat, b: nat, w: Memory, w': Memory)
    requires HeapOk(v) && DescsApart(D, v.arenas) && k < CLASSES && Live(v, b) && v.arenas[ArenaOf(b)] == Small(k)
    requires forall a: nat | !Within(Nodes(ListAt(D, k), v.free[k] + [b]), a) :: Load(w', a) == Load(w, a)
    ensures forall a: nat | LiveWord(v, b, a) :: Load(w', a) == Load(w, a)
  {
    forall a: nat | LiveWord(v, b, a) ensures Load(w', a) == Load(w, a) {
      LiveIsNoNode(v, D, b, k, v.free[k] + [b], a);
    }
  }
}
