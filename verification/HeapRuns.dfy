// Whole runs of sys_malloc and sys_free with everything else that happens to memory in between
// (source/kernel/memory.c:242-307 and 417-564, source/userprog/process.c:39-60 and 96-106): the heap is
// a set of disjoint blocks in mapped pages that hold what their owners stored, and freeing undoes
// allocating down to page tables and bitmaps.
module HeapRuns {
  import opened Basics
  import opened HeapSpec
  import opened HeapMemory
  import opened HeapPages
  import opened HeapCode
  import opened HeapStores
  import opened Frames
  import opened Paging
  import opened Spaces
  import opened Vmem
  import opened VmemData
  import opened VmemUndo

  // The heap of the kernel or of one process; the memory manager below it, with the physical memory;
  // the simple account of the addresses handed out and not taken back, with the sizes asked for; and
  // the words the heap and its users believe in.
  datatype World = World(vm: Vm, heap: HeapView, live: map<nat, nat>, words: Memory)
  datatype Whose = Whose(L: Layout, kernel: bool, proc: nat, poolSize: nat, D: nat)

  // Calls on this heap, with the stores they make through the page tables; a store by the owner of a
  // block; a store to any other page; a page operation of anyone else.
  datatype Event =
    | Malloc(size: nat, ss: Stores)
    | FreeBlock(b: nat, ss: Stores)
    | Write(b: nat, i: nat, value: nat)
    | Foreign(y: Place, j: nat, value: nat)
    | Elsewhere(op: Op)

  // The operation gives back page h of this very heap.
  predicate GivesBack(vm: Vm, op: Op, kernel: bool, proc: nat, h: nat)
  {
    op.Release? && op.fromKernel == kernel && (kernel || vm.current == Some(proc)) && op.q <= h < op.q + op.count
  }

  ghost predicate LeavesHeap(w: Whose, s: World, op: Op)
  {
    forall p: nat, h: nat | ArenaPage(s.heap.arenas, p, h) :: !GivesBack(s.vm, op, w.kernel, w.proc, h)
  }

  function HeapAfter(v: HeapView, size: nat, page: nat): HeapView
    requires |v.free| == CLASSES
  {
    if size <= 1024 then MallocSmall(v, ClassOf(size), page) else MallocLarge(v, page, PagesFor(size))
  }

  function AddressAfter(v: HeapView, size: nat, page: nat): nat
    requires |v.free| == CLASSES
  {
    if size <= 1024 then MallocSmallAddress(v, ClassOf(size), page) else page + HEADER_WORDS
  }

  // The block is handed out: on the page at `page`, if palloc supplied one, or from a free list.
  ghost predicate Handed(w: Whose, s: World, vm1: Vm, size: nat, page: nat, ss: Stores, s': World)
    requires |s.heap.free| == CLASSES
  {
    var v', b := HeapAfter(s.heap, size, page), AddressAfter(s.heap, size, page);
    && s'.vm == StoreAll(vm1, w.kernel, w.proc, ss) && s'.heap == v' && s'.live == s.live[b := size]
    && Matches(ss, s.words, s'.words, s.heap.arenas, v'.arenas) && Allocated(w.D, s.heap, v', s.words, s'.words, b, size)
  }

  // sys_malloc returned: memory.c:440-515 as palloc answers.
  ghost predicate MallocStep(w: Whose, s: World, size: nat, ss: Stores, s': World)
  {
    && |s.heap.free| == CLASSES && Asks(s.vm, w.kernel, w.proc)
    && if size == 0 || size >= w.poolSize then s' == s
       else if PagesAsked(s.heap, size) == 0 then Handed(w, s, s.vm, size, 0, ss, s')
       else match Palloc(w.L, s.vm, w.kernel, PagesAsked(s.heap, size))
         case Got(g, vm1) => Handed(w, s, vm1, size, g * PAGE_WORDS, ss, s')
         case Null => s' == s
         case _ => false
  }

  // Someone frees what it was handed; the frames that go back, if any, are returnable.
  ghost predicate FreeStep(w: Whose, s: World, b: nat, ss: Stores, s': World)
  {
    var vm1 := StoreAll(s.vm, w.kernel, w.proc, ss);
    && |s.heap.free| == CLASSES && Asks(s.vm, w.kernel, w.proc) && b in s.live && Live(s.heap, b)
    && Matches(ss, s.words, s'.words, s.heap.arenas, s.heap.arenas)
    && (forall a: nat | LiveWord(s.heap, b, a) :: Load(s'.words, a) == Load(s.words, a))
    && Clean(w.L, vm1, w.kernel, s.heap, b) && PagesReturned(w.L, vm1, s'.vm, w.kernel, s.heap, b)
    && s'.heap == Free(s.heap, b) && s'.live == s.live - {b}
  }

  ghost predicate WriteStep(w: Whose, s: World, b: nat, i: nat, value: nat, s': World)
  {
    && |s.heap.free| == CLASSES && b in s.live && Live(s.heap, b) && i < Extent(s.heap, b) && OnData(s.vm, w.kernel, w.proc, b + i)
    && s' == s.(vm := Store(s.vm, At(w.kernel, w.proc, b + i), (b + i) % PAGE_WORDS, value), words := s.words[b + i := value])
  }

  ghost predicate ForeignStep(w: Whose, s: World, y: Place, j: nat, value: nat, s': World)
  {
    && DataPage(s.vm, y) && j < PAGE_WORDS && (forall p: nat, g: nat | ArenaPage(s.heap.arenas, p, g) :: y != HeapPlace(w.kernel, w.proc, g))
    && s' == s.(vm := Store(s.vm, y, j, value))
  }

  ghost predicate ElseStep(w: Whose, s: World, op: Op, s': World)
  {
    Legal(w.L, s.vm, op) && LeavesHeap(w, s, op) && Perform(w.L, s.vm, op) == Go(s'.vm) && s' == s.(vm := s'.vm)
  }

  ghost predicate Stepped(w: Whose, s: World, e: Event, s': World)
  {
    match e
    case Malloc(size, ss) => MallocStep(w, s, size, ss, s')
    case FreeBlock(b, ss) => FreeStep(w, s, b, ss, s')
    case Write(b, i, x) => WriteStep(w, s, b, i, x, s')
    case Foreign(y, j, x) => ForeignStep(w, s, y, j, x, s')
    case Elsewhere(op) => ElseStep(w, s, op, s')
  }

  // live holds the handed-out addresses, their blocks are as large as was asked, and the heap's
  // bookkeeping is in order.
  ghost predicate Accounts(live: map<nat, nat>, v: HeapView)
  {
    HeapOk(v) && (forall b: nat :: Live(v, b) <==> b in live) && forall b: nat | b in live :: live[b] <= 4 * Extent(v, b)
  }

  ghost predicate WorldOk(w: Whose, s: World)
  {
    && Sound(w.L, s.vm) && Accounts(s.live, s.heap) && PagesHeld(s.vm, w.kernel, w.proc, s.heap.arenas)
    && Mirror(s.vm, w.kernel, w.proc, s.heap.arenas, s.words)
  }

  // ----- the calls are steps

  // What SysMalloc promises about a pointer it returns is such a step, for some stores.
  lemma MallocIsStep(w: Whose, s: World, vm1: Vm, v': HeapView, words': Memory, size: nat, page: nat, b: nat)
      returns (ss: Stores, s': World)
    requires |s.heap.free| == CLASSES && Asks(s.vm, w.kernel, w.proc) && 0 < size < w.poolSize && ArenasOk(v'.arenas)
    requires Supplied(w.L, s.vm, vm1, w.kernel, PagesAsked(s.heap, size), page, Ptr(b)) && Chosen(s.heap, v', size, page, b)
    requires Allocated(w.D, s.heap, v', s.words, words', b, size)
    ensures MallocStep(w, s, size, ss, s') && s'.heap == v' && s'.words == words' && s'.live == s.live[b := size]
  {
    hide Palloc, Allocated, Matches, ArenasOk;
    ss := Realise(s.words, words', s.heap.arenas, v'.arenas);
    s' := World(StoreAll(vm1, w.kernel, w.proc, ss), v', s.live[b := size], words');
    if PagesAsked(s.heap, size) == 0 { SamePlaceless(s.heap, v', size, page, b); }
  }

  // Without new pages the place of new pages does not matter.
  lemma SamePlaceless(v: HeapView, v': HeapView, size: nat, page: nat, b: nat)
    requires |v.free| == CLASSES && PagesAsked(v, size) == 0 && Chosen(v, v', size, page, b)
    ensures v' == HeapAfter(v, size, 0) && b == AddressAfter(v, size, 0)
  {
  }

  // And so is what SysFree promises, when its call is clean.
  lemma FreeIsStep(w: Whose, s: World, b: nat, words': Memory) returns (ss: Stores, s': World)
    requires WorldOk(w, s) && |s.heap.free| == CLASSES && Asks(s.vm, w.kernel, w.proc) && b in s.live && Live(s.heap, b)
    requires forall a: nat | LiveWord(s.heap, b, a) :: Load(words', a) == Load(s.words, a)
    requires Clean(w.L, s.vm, w.kernel, s.heap, b)
    ensures FreeStep(w, s, b, ss, s') && s'.words == words' && s'.heap == Free(s.heap, b)
  {
    WorldLists(w, s);
    hide Matches, Mirror, Sound, PagesHeld, Accounts, LiveWord, StoredTo, Clean, PagesReturned, Free, Live, ArenasOk;
    ss := Realise(s.words, words', s.heap.arenas, s.heap.arenas);
    MirrorStores(w.L, s.vm, w.kernel, w.proc, ss, s.words, words', s.heap.arenas, s.heap.arenas);
    var vm1 := StoreAll(s.vm, w.kernel, w.proc, ss);
    FreedAccounts(s.live, s.heap, b);
    HeldAfterStores(w.L, s.vm, vm1, w.kernel, w.proc, ss, s.heap.arenas);
    AsksAfterStores(w.L, s.vm, vm1, w.kernel, w.proc, ss);
    StillClean(w, s.vm, vm1, ss, s.heap, b);
    var vm' := Returns(w, vm1, s.heap, b);
    s' := World(vm', Free(s.heap, b), s.live - {b}, words');
  }

  // The stores of a free leave every page on its frame.
  lemma StillClean(w: Whose, vm: Vm, vm1: Vm, ss: Stores, v: HeapView, b: nat)
    requires Sound(w.L, vm) && HeapOk(v) && Live(v, b) && PagesHeld(vm, w.kernel, w.proc, v.arenas) && Asks(vm, w.kernel, w.proc)
    requires StoredTo(w.L, vm, vm1, w.kernel, w.proc, ss) && Clean(w.L, vm, w.kernel, v, b)
    ensures Clean(w.L, vm1, w.kernel, v, b)
  {
    FreeArenas(v, b);
    hide HeapOk, Live, Free, Sound, PagesHeld, SeenAt, Last, VmOk;
    var p: nat := ArenaOf(b);
    var g, n := p / PAGE_WORDS, Pages(v.arenas[p]);
    var o: Owners :| VmOk(w.L, vm, o) by { SoundHas(w.L, vm); }
    forall y: Place | Managed(vm1.dirs, y) && InRun(w.kernel, Who(vm1), g, n, y)
      ensures Managed(vm.dirs, y) && InRun(w.kernel, Who(vm), g, n, y) && Backing(vm1.phys, vm1.dirs, y) == Backing(vm.phys, vm.dirs, y)
    {
      assert ArenaPage(v.arenas, p, y.q) && y == HeapPlace(w.kernel, w.proc, y.q);
      HeldOf(vm, w.kernel, w.proc, v.arenas, p, y.q);
      HeldIsData(w.L, vm, o, w.kernel, w.proc, y.q);
    }
  }

  lemma SoundHas(L: Layout, vm: Vm)
    requires Sound(L, vm)
    ensures exists o: Owners :: VmOk(L, vm, o)
  {
  }

  // The pages a free gives back can be given back.
  lemma Returns(w: Whose, vm: Vm, v: HeapView, b: nat) returns (vm': Vm)
    requires Sound(w.L, vm) && HeapOk(v) && Live(v, b) && PagesHeld(vm, w.kernel, w.proc, v.arenas) && Asks(vm, w.kernel, w.proc)
    ensures PagesReturned(w.L, vm, vm', w.kernel, v, b)
  {
    FreeArenas(v, b);
    hide HeapOk, Live, Free, Sound, PagesHeld, Pfree, PagesKept;
    var p: nat := ArenaOf(b);
    PfreeKeepsPages(w.L, vm, w.kernel, w.proc, v, p);
    vm' := if p in Free(v, b).arenas then vm else Pfree(w.L, vm, w.kernel, p / PAGE_WORDS, Pages(v.arenas[p])).vm;
  }

  // ----- each step keeps the world

  lemma ArenasOf(live: map<nat, nat>, v: HeapView)
    requires Accounts(live, v)
    ensures ArenasOk(v.arenas) && |v.free| == CLASSES
  {
  }

  // Bits and directories are not in the words stored to.
  lemma HeldAfterStores(L: Layout, vm: Vm, vm': Vm, kernel: bool, proc: nat, ss: Stores, arenas: map<nat, Kind>)
    requires StoredTo(L, vm, vm', kernel, proc, ss) && PagesHeld(vm, kernel, proc, arenas)
    ensures PagesHeld(vm', kernel, proc, arenas) && Sound(L, vm')
  {
    hide Sound, DataPage, Backing, SeenAt;
  }

  lemma MallocKeeps(w: Whose, s: World, size: nat, ss: Stores, s': World)
    requires WorldOk(w, s) && MallocStep(w, s, size, ss, s')
    ensures WorldOk(w, s')
  {
    hide WorldOk, Palloc, Handed;
    WorldLists(w, s);
    if s' != s {
      if PagesAsked(s.heap, size) == 0 {
        TakeKeeps(w, s, size, ss, s');
      } else {
        NewPagesKeep(w, s, size, ss, s');
      }
    }
  }

  lemma WorldLists(w: Whose, s: World)
    requires WorldOk(w, s)
    ensures ArenasOk(s.heap.arenas) && |s.heap.free| == CLASSES
  {
  }

  // The account after a malloc.
  lemma AllocatedAccounts(live: map<nat, nat>, v: HeapView, v': HeapView, D: nat, words: Memory, words': Memory, b: nat, size: nat)
    requires Accounts(live, v) && HeapOk(v') && Allocated(D, v, v', words, words', b, size)
    ensures Accounts(live[b := size], v')
  {
    hide HeapOk, LiveWord, StaysIn, Live, Extent;
  }

  lemma TakeKeeps(w: Whose, s: World, size: nat, ss: Stores, s': World)
    requires WorldOk(w, s) && |s.heap.free| == CLASSES && PagesAsked(s.heap, size) == 0 && Handed(w, s, s.vm, size, 0, ss, s')
    ensures WorldOk(w, s')
  {
    hide Sound, PagesHeld, Mirror, Matches, Allocated, StoredTo;
    var k := ClassOf(size);
    AccountsHeap(s.live, s.heap);
    MallocSmallOk(s.heap, k, 0);
    hide HeapOk;
    AllocatedAccounts(s.live, s.heap, s'.heap, w.D, s.words, s'.words, AddressAfter(s.heap, size, 0), size);
    MirrorStores(w.L, s.vm, w.kernel, w.proc, ss, s.words, s'.words, s.heap.arenas, s'.heap.arenas);
    HeldAfterStores(w.L, s.vm, s'.vm, w.kernel, w.proc, ss, s'.heap.arenas);
  }

  lemma AccountsHeap(live: map<nat, nat>, v: HeapView)
    requires Accounts(live, v)
    ensures HeapOk(v)
  {
  }

  // The pages palloc supplies are unused by the heap, and its own from then on.
  lemma NewPagesKeep(w: Whose, s: World, size: nat, ss: Stores, s': World)
    requires WorldOk(w, s) && |s.heap.free| == CLASSES && Asks(s.vm, w.kernel, w.proc) && PagesAsked(s.heap, size) > 0
    requires Palloc(w.L, s.vm, w.kernel, PagesAsked(s.heap, size)).Got?
    requires var r := Palloc(w.L, s.vm, w.kernel, PagesAsked(s.heap, size));
             Handed(w, s, r.vm, size, r.page * PAGE_WORDS, ss, s')
    ensures WorldOk(w, s')
  {
    hide Sound, PagesHeld, Palloc, NewPages, Mirror, Matches, Allocated, StoredTo, Accounts, PagesKept;
    var n := PagesAsked(s.heap, size);
    var g, vm1 := Palloc(w.L, s.vm, w.kernel, n).page, Palloc(w.L, s.vm, w.kernel, n).vm;
    var page := g * PAGE_WORDS;
    ArenasOf(s.live, s.heap);
    AccountsHeap(s.live, s.heap);
    PallocNewPages(w.L, s.vm, w.kernel, w.proc, n);
    PallocKeepsPages(w.L, s.vm, w.kernel, w.proc, s.heap.arenas, n);
    NewPagesUnused(s.vm, vm1, w.kernel, w.proc, s.heap, g, n);
    NewHeapOk(w, s.vm, vm1, s.heap, size, g);
    AllocatedAccounts(s.live, s.heap, s'.heap, w.D, s.words, s'.words, AddressAfter(s.heap, size, page), size);
    MirrorKept(s.vm, vm1, w.kernel, w.proc, s.heap.arenas, s.words);
    MirrorStores(w.L, vm1, w.kernel, w.proc, ss, s.words, s'.words, s.heap.arenas, s'.heap.arenas);
    HeldAfterStores(w.L, vm1, s'.vm, w.kernel, w.proc, ss, s'.heap.arenas);
  }

  lemma NewHeapOk(w: Whose, vm: Vm, vm1: Vm, v: HeapView, size: nat, g: nat)
    requires HeapOk(v) && PagesAsked(v, size) > 0 && Unused(v, g * PAGE_WORDS, PagesAsked(v, size))
    requires PagesHeld(vm, w.kernel, w.proc, v.arenas) && NewPages(vm, vm1, w.kernel, w.proc, g, PagesAsked(v, size))
    ensures HeapOk(HeapAfter(v, size, g * PAGE_WORDS))
    ensures PagesHeld(vm1, w.kernel, w.proc, HeapAfter(v, size, g * PAGE_WORDS).arenas)
  {
    hide PagesHeld, NewPages;
    if size > 1024 {
      MallocLargeOk(v, g * PAGE_WORDS, PagesFor(size));
      NewPagesHeld(vm, vm1, w.kernel, w.proc, v, g, Large(PagesFor(size)));
    } else {
      MallocSmallOk(v, ClassOf(size), g * PAGE_WORDS);
      NewPagesHeld(vm, vm1, w.kernel, w.proc, v, g, Small(ClassOf(size)));
    }
  }

  lemma FreeKeeps(w: Whose, s: World, b: nat, ss: Stores, s': World)
    requires WorldOk(w, s) && FreeStep(w, s, b, ss, s')
    ensures WorldOk(w, s')
  {
    hide Sound, PagesHeld, Mirror, Matches, StoredTo, Accounts, LiveWord, Clean, PagesReturned, Free, Live;
    var vm1 := StoreAll(s.vm, w.kernel, w.proc, ss);
    ArenasOf(s.live, s.heap);
    FreedAccounts(s.live, s.heap, b);
    MirrorStores(w.L, s.vm, w.kernel, w.proc, ss, s.words, s'.words, s.heap.arenas, s.heap.arenas);
    HeldAfterStores(w.L, s.vm, vm1, w.kernel, w.proc, ss, s.heap.arenas);
    AsksAfterStores(w.L, s.vm, vm1, w.kernel, w.proc, ss);
    FreePages(w, vm1, s.heap, b, s'.vm, s'.words);
  }

  lemma AsksAfterStores(L: Layout, vm: Vm, vm': Vm, kernel: bool, proc: nat, ss: Stores)
    requires StoredTo(L, vm, vm', kernel, proc, ss) && Asks(vm, kernel, proc)
    ensures Asks(vm', kernel, proc)
  {
    hide Sound, DataPage, Backing, SeenAt;
  }

  lemma FreedAccounts(live: map<nat, nat>, v: HeapView, b: nat)
    requires Accounts(live, v) && |v.free| == CLASSES && Live(v, b)
    ensures Accounts(live - {b}, Free(v, b)) && HeapOk(v)
  {
    FreeOk(v, b);
    hide HeapOk, Live, Extent, Free;
  }

  // The pages after the stores of a free: all kept, or those of the released arena given back.
  lemma FreePages(w: Whose, vm: Vm, v: HeapView, b: nat, vm': Vm, words: Memory)
    requires HeapOk(v) && Live(v, b) && Sound(w.L, vm) && Asks(vm, w.kernel, w.proc) && PagesHeld(vm, w.kernel, w.proc, v.arenas)
    requires Mirror(vm, w.kernel, w.proc, v.arenas, words)
    requires Clean(w.L, vm, w.kernel, v, b) && PagesReturned(w.L, vm, vm', w.kernel, v, b)
    ensures Sound(w.L, vm') && PagesHeld(vm', w.kernel, w.proc, Free(v, b).arenas) && Mirror(vm', w.kernel, w.proc, Free(v, b).arenas, words)
  {
    FreeArenas(v, b);
    hide HeapOk, Live, Free, Sound, RunReturnable, Pfree, PagesHeld, Mirror, PagesKept;
    var p: nat := ArenaOf(b);
    if p !in Free(v, b).arenas {
      PagesGiven(w, vm, v, p, vm');
      PfreeKeepsPages(w.L, vm, w.kernel, w.proc, v, p);
      FewerMirror(vm, w.kernel, w.proc, v.arenas, p, words);
      MirrorKept(vm, vm', w.kernel, w.proc, v.arenas - {p}, words);
    }
  }

  lemma FewerMirror(vm: Vm, kernel: bool, proc: nat, arenas: map<nat, Kind>, p: nat, words: Memory)
    requires Mirror(vm, kernel, proc, arenas, words)
    ensures Mirror(vm, kernel, proc, arenas - {p}, words)
  {
    hide Shown;
    forall q: nat, g: nat | ArenaPage(arenas - {p}, q, g) ensures Shown(vm, kernel, proc, words, g) { assert ArenaPage(arenas, q, g); }
  }

  // What a free does to the set of arenas.
  lemma FreeArenas(v: HeapView, b: nat)
    requires HeapOk(v) && Live(v, b)
    ensures ArenasOk(v.arenas) && ArenaOf(b) in v.arenas
    ensures Free(v, b).arenas == if ArenaOf(b) in Free(v, b).arenas then v.arenas else v.arenas - {ArenaOf(b)}
  {
  }

  lemma PagesGiven(w: Whose, vm: Vm, v: HeapView, p: nat, vm': Vm)
    requires Sound(w.L, vm) && Asks(vm, w.kernel, w.proc) && ArenasOk(v.arenas) && p in v.arenas
    requires PagesHeld(vm, w.kernel, w.proc, v.arenas)
    requires var g, n := p / PAGE_WORDS, Pages(v.arenas[p]);
             && MayAsk(vm, w.kernel) && Base(w.kernel) <= g && Pfree(w.L, vm, w.kernel, g, n) == Go(vm')
             && RunReturnable(w.L, vm.phys, vm.dirs, w.kernel, Who(vm), g, n)
    ensures Sound(w.L, vm') && PagesHeld(vm', w.kernel, w.proc, v.arenas - {p})
  {
    hide Sound, Pfree, Held, RunReturnable;
    var g, n := p / PAGE_WORDS, Pages(v.arenas[p]);
    ArenaPages(vm, w.kernel, w.proc, v, p);
    forall h: nat | g <= h < g + n ensures Held(vm, w.kernel, w.proc, h) { assert ArenaPage(v.arenas, p, h); }
    PfreeHeld(w.L, vm, w.kernel, w.proc, g, n);
    PagesAfterFree(vm, vm', w.kernel, w.proc, v, p);
  }

  lemma WriteKeeps(w: Whose, s: World, b: nat, i: nat, value: nat, s': World)
    requires WorldOk(w, s) && WriteStep(w, s, b, i, value, s')
    ensures WorldOk(w, s')
  {
    hide Sound, PagesHeld, Mirror, StoredTo, Accounts, Live, Extent, OnHeap, OnData, Store, Matches, HeapOk;
    var a, ss := b + i, [(b + i, value)];
    AccountsHeap(s.live, s.heap);
    LiveOnHeap(s.heap, b, a);
    OneStore(s.vm, w.kernel, w.proc, a, value);
    WriteMatches(s.words, s.heap.arenas, a, value);
    MirrorStores(w.L, s.vm, w.kernel, w.proc, ss, s.words, s'.words, s.heap.arenas, s.heap.arenas);
    HeldAfterStores(w.L, s.vm, s'.vm, w.kernel, w.proc, ss, s.heap.arenas);
  }

  lemma OneStore(vm: Vm, kernel: bool, proc: nat, a: nat, value: nat)
    requires OnData(vm, kernel, proc, a)
    ensures DataPage(vm, At(kernel, proc, a))
    ensures StoreAll(vm, kernel, proc, [(a, value)]) == Store(vm, At(kernel, proc, a), a % PAGE_WORDS, value)
  {
    hide DataPage, Store;
    var ss := [(a, value)];
    assert ss[..0] == [] && StoreAll(vm, kernel, proc, ss[..0]) == vm;
  }

  lemma WriteMatches(words: Memory, arenas: map<nat, Kind>, a: nat, value: nat)
    requires OnHeap(arenas, a)
    ensures Matches([(a, value)], words, words[a := value], arenas, arenas)
  {
    hide OnHeap;
    var ss := [(a, value)];
    assert ss[..0] == [];
    forall c: nat ensures Last(ss, c) == if c == a then Some(value) else None { assert Last(ss[..0], c) == None; }
    StoreLoad(words, a, value);
  }

  lemma LiveOnHeap(v: HeapView, b: nat, a: nat)
    requires HeapOk(v) && Live(v, b) && b <= a < b + Extent(v, b)
    ensures OnHeap(v.arenas, a)
  {
    LiveInside(v, b);
    assert ArenaOf(b) % PAGE_WORDS == 0;
    assert ArenaPage(v.arenas, ArenaOf(b), a / PAGE_WORDS);
  }

  lemma ForeignKeeps(w: Whose, s: World, y: Place, j: nat, value: nat, s': World)
    requires WorldOk(w, s) && ForeignStep(w, s, y, j, value, s')
    ensures WorldOk(w, s')
  {
    StoreThrough(w.L, s.vm, y, j, value);
    StoreOnly(s.vm, y, j, value);
    hide Sound, Accounts, DataPage, Seen, Backing, Store, Held;
    forall p: nat, g: nat | ArenaPage(s.heap.arenas, p, g) ensures Shown(s'.vm, w.kernel, w.proc, s.words, g) {
      assert Shown(s.vm, w.kernel, w.proc, s.words, g);
      var x := HeapPlace(w.kernel, w.proc, g);
      assert DataPage(s'.vm, x);
      forall a: nat | a / PAGE_WORDS == g ensures OnData(s'.vm, w.kernel, w.proc, a) && Load(s.words, a) == SeenAt(s'.vm, w.kernel, w.proc, a) {
        assert At(w.kernel, w.proc, a) == x && OnData(s.vm, w.kernel, w.proc, a);
      }
    }
    HeldSame(s.vm, s'.vm, w.kernel, w.proc, s.heap.arenas);
  }

  lemma HeldSame(vm: Vm, vm': Vm, kernel: bool, proc: nat, arenas: map<nat, Kind>)
    requires vm' == vm.(phys := vm'.phys) && PagesHeld(vm, kernel, proc, arenas)
    ensures PagesHeld(vm', kernel, proc, arenas)
  {
  }

  lemma ElseKeeps(w: Whose, s: World, op: Op, s': World)
    requires WorldOk(w, s) && ElseStep(w, s, op, s')
    ensures WorldOk(w, s')
  {
    hide Sound, Legal, Perform, Held, Accounts, Mirror, PagesKept;
    OpKeeps(w.L, s.vm, op);
    forall p: nat, h: nat | ArenaPage(s.heap.arenas, p, h) ensures Held(s'.vm, w.kernel, w.proc, h) {
      HeldThroughOps(w.L, s.vm, op, w.kernel, w.proc, h);
    }
    ElseKeepsPages(w, s, op, s');
    MirrorKept(s.vm, s'.vm, w.kernel, w.proc, s.heap.arenas, s.words);
  }

  // Whoever operates, the pages of the heap stay on their frames, with their contents.
  lemma ElseKeepsPages(w: Whose, s: World, op: Op, s': World)
    requires Sound(w.L, s.vm) && PagesHeld(s.vm, w.kernel, w.proc, s.heap.arenas) && ElseStep(w, s, op, s')
    ensures PagesKept(s.vm, s'.vm, w.kernel, w.proc, s.heap.arenas)
  {
    hide VmOk, Legal, Perform, DataPage, Preserved, GivesBack;
    var o: Owners :| VmOk(w.L, s.vm, o);
    forall p: nat, g: nat | ArenaPage(s.heap.arenas, p, g)
      ensures DataPage(s.vm, HeapPlace(w.kernel, w.proc, g)) && Preserved(s.vm, s'.vm, HeapPlace(w.kernel, w.proc, g))
    {
      assert !GivesBack(s.vm, op, w.kernel, w.proc, g) && Held(s.vm, w.kernel, w.proc, g);
      HeldIsData(w.L, s.vm, o, w.kernel, w.proc, g);
      RunOfOthers(w.L, s.vm, op, w.kernel, w.proc, g);
      OpKeepsData(w.L, s.vm, op, HeapPlace(w.kernel, w.proc, g));
    }
  }

  lemma RunOfOthers(L: Layout, vm: Vm, op: Op, kernel: bool, proc: nat, g: nat)
    requires Legal(L, vm, op) && !GivesBack(vm, op, kernel, proc, g) && Held(vm, kernel, proc, g)
    ensures op.Release? ==> !InRun(op.fromKernel, Who(vm), op.q, op.count, HeapPlace(kernel, proc, g))
  {
    hide Removable, RunReturnable;
  }

  // A heap keeps its pages through every page operation of anyone, process creation and switching
  // included, but its own release of them.
  lemma HeldThroughOps(L: Layout, vm: Vm, op: Op, kernel: bool, proc: nat, h: nat)
    requires Sound(L, vm) && Legal(L, vm, op) && Perform(L, vm, op).Go?
    requires Held(vm, kernel, proc, h) && !GivesBack(vm, op, kernel, proc, h)
    ensures Held(Perform(L, vm, op).vm, kernel, proc, h)
  {
    hide VmOk, Palloc, Pfree, Removable, RunReturnable, Unmapped, MapsRun, UnmapsRun, NewDirectory, VirtualAddrToPhysicAddr;
    var o: Owners :| VmOk(L, vm, o);
    match op {
      case Allocate(k, n) => if Palloc(L, vm, k, n).Got? { var o' := PallocOk(L, vm, o, k, n); }
      case Release(k, q, n) => var o' := PfreeOk(L, vm, o, k, q, n);
      case NewProcess => if CreatPDE(L, vm).Got? { HeldThroughCreate(L, vm, o, kernel, proc, h); }
      case SwitchTo(to) => ActivePDEOk(L, vm, o, to);
    }
  }

  // The new directory's page is nobody's heap page.
  lemma HeldThroughCreate(L: Layout, vm: Vm, o: Owners, kernel: bool, proc: nat, h: nat)
    requires VmOk(L, vm, o) && CreatPDE(L, vm).Got? && Held(vm, kernel, proc, h)
    ensures Held(CreatPDE(L, vm).vm, kernel, proc, h)
  {
    hide VmOk, Palloc, Unmapped, MapsRun, NewDirectory, VirtualAddrToPhysicAddr;
    var o' := PallocOk(L, vm, o, true, 1);
    var q := Palloc(L, vm, true, 1).page;
    FreshAreNotHeld(L, vm, o, true, proc, q, 1);
    assert q <= q < q + 1;
    assert !Held(vm, true, proc, q);
  }

  lemma StepKeeps(w: Whose, s: World, e: Event, s': World)
    requires WorldOk(w, s) && Stepped(w, s, e, s')
    ensures WorldOk(w, s')
  {
    hide WorldOk, MallocStep, FreeStep, WriteStep, ForeignStep, ElseStep;
    match e {
      case Malloc(size, ss) => MallocKeeps(w, s, size, ss, s');
      case FreeBlock(b, ss) => FreeKeeps(w, s, b, ss, s');
      case Write(b, i, x) => WriteKeeps(w, s, b, i, x, s');
      case Foreign(y, j, x) => ForeignKeeps(w, s, y, j, x, s');
      case Elsewhere(op) => ElseKeeps(w, s, op, s');
    }
  }

  // ----- whole runs

  // From a heap just initialised on a sound machine.
  ghost predicate HeapTrace(w: Whose, states: seq<World>, events: seq<Event>)
  {
    && |states| == |events| + 1
    && Sound(w.L, states[0].vm) && states[0].heap == HeapSpec.EMPTY && states[0].live == map[]
    && forall i, j | 0 <= i && j == i + 1 && j < |states| :: Stepped(w, states[i], events[i], states[j])
  }

  lemma StartOk(w: Whose, s: World)
    requires Sound(w.L, s.vm) && s.heap == HeapSpec.EMPTY && s.live == map[]
    ensures WorldOk(w, s)
  {
    hide Sound;
  }

  // In every state of every run the bitmaps, pools and page tables are sound, the heap is in order on
  // pages it holds, the live blocks are exactly those handed out and not freed, and the words of the
  // heap are the words its frames hold ...
  lemma {:induction false} RunOk(w: Whose, states: seq<World>, events: seq<Event>, n: nat)
    requires HeapTrace(w, states, events) && n < |states|
    ensures WorldOk(w, states[n])
  {
    hide WorldOk, Stepped, Sound;
    if n == 0 {
      StartOk(w, states[0]);
    } else {
      RunOk(w, states, events, n - 1);
      var i, j := n - 1, n;
      assert Stepped(w, states[i], events[i], states[j]);
      StepKeeps(w, states[i], events[i], states[j]);
    }
  }

  // ... so the blocks handed out hold at least the size asked for, lie wholly in mapped pages and never
  // overlap each other, an arena header or a free block ...
  lemma RunSafe(w: Whose, states: seq<World>, events: seq<Event>, n: nat)
    requires HeapTrace(w, states, events) && n < |states|
    ensures var v, live := states[n].heap, states[n].live;
            && |v.free| == CLASSES && (forall b: nat | b in live :: Live(v, b) && live[b] <= 4 * Extent(v, b))
            && (forall b: nat, c: nat | b in live && c in live && b < c :: b + Extent(v, b) <= c)
            && (forall b: nat, q | b in live && q in v.arenas :: b + Extent(v, b) <= q || q + HEADER_WORDS <= b)
            && (forall b: nat, f, k: nat | b in live && k < CLASSES && f in v.free[k] ::
                  b + Extent(v, b) <= f || f + BlockWords(k) <= b)
            && (forall b: nat, a: nat | b in live && b <= a < b + Extent(v, b) :: Mapped(w, states[n].vm, a))
  {
    RunOk(w, states, events, n);
    hide HeapTrace;
    var v, live := states[n].heap, states[n].live;
    LivesApart(v, live);
    hide HeapOk, Extent, Sound, PagesHeld, Mapped, Mirror;
    forall b: nat, q | b in live && q in v.arenas ensures b + Extent(v, b) <= q || q + HEADER_WORDS <= b { LiveAvoidsHeader(v, b, q); }
    forall b: nat, f, k: nat | b in live && k < CLASSES && f in v.free[k]
      ensures b + Extent(v, b) <= f || f + BlockWords(k) <= b
    {
      LiveAvoidsFree(v, b, k, f);
    }
    forall b: nat, a: nat | b in live && b <= a < b + Extent(v, b) ensures Mapped(w, states[n].vm, a) {
      LiveIsMapped(w, states[n].vm, v, b, a);
    }
  }

  // The page of address a is mapped in the heap's address space.
  predicate Mapped(w: Whose, vm: Vm, a: nat)
  {
    var x := HeapPlace(w.kernel, w.proc, a / PAGE_WORDS);
    Managed(vm.dirs, x) && Backing(vm.phys, vm.dirs, x).Some?
  }

  lemma LivesApart(v: HeapView, live: map<nat, nat>)
    requires Accounts(live, v)
    ensures forall b: nat, c: nat | b in live && c in live && b < c :: b + Extent(v, b) <= c
  {
    forall b: nat, c: nat | b in live && c in live && b < c ensures b + Extent(v, b) <= c {
      LiveDisjoint(v, b, c);
      LiveInside(v, c);
    }
  }

  lemma LiveIsMapped(w: Whose, vm: Vm, v: HeapView, b: nat, a: nat)
    requires Sound(w.L, vm) && HeapOk(v) && PagesHeld(vm, w.kernel, w.proc, v.arenas) && Live(v, b) && b <= a < b + Extent(v, b)
    ensures Mapped(w, vm, a)
  {
    LiveOnHeap(v, b, a);
    HeapIsData(w.L, vm, w.kernel, w.proc, v.arenas, a);
  }

  // ... and a run after which nothing is handed out ends in the initial heap.
  lemma RunDrains(w: Whose, states: seq<World>, events: seq<Event>, n: nat)
    requires HeapTrace(w, states, events) && n < |states| && states[n].live == map[]
    ensures states[n].heap == HeapSpec.EMPTY
  {
    RunOk(w, states, events, n);
    NoLiveIsEmpty(states[n].heap);
  }

  // ----- what a block holds

  // The word at a of a live block, read through the page tables from physical memory.
  function Holds(w: Whose, s: World, a: nat): nat
    requires OnData(s.vm, w.kernel, w.proc, a)
  {
    SeenAt(s.vm, w.kernel, w.proc, a)
  }

  lemma LiveHolds(w: Whose, s: World, b: nat, a: nat)
    requires WorldOk(w, s) && |s.heap.free| == CLASSES && Live(s.heap, b) && b <= a < b + Extent(s.heap, b)
    ensures OnData(s.vm, w.kernel, w.proc, a) && Holds(w, s, a) == Load(s.words, a)
  {
    AccountsHeap(s.live, s.heap);
    LiveOnHeap(s.heap, b, a);
    HeapIsData(w.L, s.vm, w.kernel, w.proc, s.heap.arenas, a);
    var p: nat :| ArenaPage(s.heap.arenas, p, a / PAGE_WORDS);
    assert Shown(s.vm, w.kernel, w.proc, s.words, a / PAGE_WORDS);
  }

  // A block just handed out reads zero.
  lemma HandedIsZero(w: Whose, s: World, size: nat, ss: Stores, s': World, b: nat, a: nat)
    requires WorldOk(w, s) && MallocStep(w, s, size, ss, s') && b in s'.live && b !in s.live
    requires |s'.heap.free| == CLASSES && Live(s'.heap, b) && b <= a < b + Extent(s'.heap, b)
    ensures OnData(s'.vm, w.kernel, w.proc, a) && Holds(w, s', a) == 0
  {
    hide WorldOk, OnData, MallocStep, Holds, Live, Extent;
    MallocKeeps(w, s, size, ss, s');
    LiveHolds(w, s', b, a);
    ZeroWords(w, s, size, ss, s', b, a);
  }

  lemma ZeroWords(w: Whose, s: World, size: nat, ss: Stores, s': World, b: nat, a: nat)
    requires MallocStep(w, s, size, ss, s') && b in s'.live && b !in s.live
    requires |s'.heap.free| == CLASSES && Live(s'.heap, b) && b <= a < b + Extent(s'.heap, b)
    ensures Load(s'.words, a) == 0
  {
    hide Palloc, Matches, StaysIn, LiveWord, Live, Extent, HeapAfter, AddressAfter, OneMore, PagesAsked;
    assert s' != s;
  }

  // A block holds what its owner stored: no other event, by anyone, changes a word of it.
  lemma HoldsUntilWritten(w: Whose, s: World, e: Event, s': World, b: nat, a: nat)
    requires WorldOk(w, s) && Stepped(w, s, e, s') && b in s.live && b in s'.live
    requires |s.heap.free| == CLASSES && Live(s.heap, b) && b <= a < b + Extent(s.heap, b)
    ensures OnData(s.vm, w.kernel, w.proc, a) && OnData(s'.vm, w.kernel, w.proc, a)
    ensures Holds(w, s', a) == if e.Write? && e.b + e.i == a then e.value else Holds(w, s, a)
  {
    hide OnData;
    StepKeeps(w, s, e, s');
    LiveHolds(w, s, b, a);
    StillLive(w, s, e, s', b);
    LiveHolds(w, s', b, a);
    WordKept(w, s, e, s', b, a);
  }

  // A block that stays handed out stays as large.
  lemma StillLive(w: Whose, s: World, e: Event, s': World, b: nat)
    requires WorldOk(w, s) && WorldOk(w, s') && Stepped(w, s, e, s') && b in s.live && b in s'.live
    requires |s.heap.free| == CLASSES && Live(s.heap, b)
    ensures |s'.heap.free| == CLASSES && Live(s'.heap, b) && Extent(s'.heap, b) == Extent(s.heap, b)
  {
    WorldLists(w, s');
    match e {
      case Malloc(size, ss) => StillLiveMalloc(w, s, size, ss, s', b);
      case FreeBlock(c, ss) =>
        AccountsHeap(s.live, s.heap);
        FreeOk(s.heap, c);
      case Write(_, _, _) =>
      case Foreign(_, _, _) =>
      case Elsewhere(_) =>
    }
  }

  lemma StillLiveMalloc(w: Whose, s: World, size: nat, ss: Stores, s': World, b: nat)
    requires MallocStep(w, s, size, ss, s') && |s.heap.free| == CLASSES && Live(s.heap, b) && |s'.heap.free| == CLASSES
    ensures Live(s'.heap, b) && Extent(s'.heap, b) == Extent(s.heap, b)
  {
    hide Palloc, Matches, StaysIn, LiveWord, Live, Extent, HeapAfter, AddressAfter;
  }

  lemma WordKept(w: Whose, s: World, e: Event, s': World, b: nat, a: nat)
    requires WorldOk(w, s) && Stepped(w, s, e, s') && b in s.live && b in s'.live
    requires |s.heap.free| == CLASSES && Live(s.heap, b) && b <= a < b + Extent(s.heap, b)
    ensures Load(s'.words, a) == if e.Write? && e.b + e.i == a then e.value else Load(s.words, a)
  {
    hide WorldOk, LiveWord, Live, Extent, MallocStep, FreeStep, OnData, Store;
    LiveWords(w, s, b, a);
    match e {
      case Malloc(size, ss) => WordKeptMalloc(w, s, size, ss, s', a);
      case FreeBlock(c, ss) => WordKeptFree(w, s, c, ss, s', b, a);
      case Write(c, i, x) => StoreLoad(s.words, c + i, x);
      case Foreign(_, _, _) =>
      case Elsewhere(_) =>
    }
  }

  lemma WordKeptMalloc(w: Whose, s: World, size: nat, ss: Stores, s': World, a: nat)
    requires MallocStep(w, s, size, ss, s') && |s.heap.free| == CLASSES && LiveWord(s.heap, 0, a)
    ensures Load(s'.words, a) == Load(s.words, a)
  {
    hide Palloc, Matches, StaysIn, LiveWord, Live, Extent, HeapAfter, AddressAfter, OneMore, PagesAsked;
  }

  lemma WordKeptFree(w: Whose, s: World, c: nat, ss: Stores, s': World, b: nat, a: nat)
    requires FreeStep(w, s, c, ss, s') && |s.heap.free| == CLASSES && b in s'.live && (c != b ==> LiveWord(s.heap, c, a))
    ensures Load(s'.words, a) == Load(s.words, a)
  {
    hide Matches, LiveWord, Live, Extent, Clean, PagesReturned, StoreAll;
    assert c != b;
  }

  lemma LiveWords(w: Whose, s: World, b: nat, a: nat)
    requires WorldOk(w, s) && |s.heap.free| == CLASSES && Live(s.heap, b) && b <= a < b + Extent(s.heap, b)
    ensures b != 0 && forall c: nat | c != b :: LiveWord(s.heap, c, a)
  {
    AccountsHeap(s.live, s.heap);
    LiveInside(s.heap, b);
  }

  // ----- sys_free after sys_malloc

  // A request that found a free block: the lists and counts are restored, no page moved.
  lemma FreeUndoesTake(L: Layout, vm: Vm, vm1: Vm, vm2: Vm, kernel: bool, v: HeapView, k: nat)
    requires HeapOk(v) && k < CLASSES && v.free[k] != []
    requires Supplied(L, vm, vm1, kernel, 0, 0, Ptr(v.free[k][0]))
    requires var v1, b := MallocSmall(v, k, 0), v.free[k][0]; Live(v1, b) ==> PagesReturned(L, vm1, vm2, kernel, v1, b)
    ensures var v1, b := MallocSmall(v, k, 0), v.free[k][0]; Live(v1, b) && Same(Free(v1, b), v) && vm2 == vm
  {
    FreeUndoesMallocSmall(v, k, 0);
    assert ListOk(v, k) && v.free[k][0] in v.free[k];
  }

  // A request of `size` bytes that took pages at `page`, small or large.
  ghost predicate TookPages(v: HeapView, v1: HeapView, size: nat, page: nat, b: nat)
  {
    && HeapOk(v) && Chosen(v, v1, size, page, b) && |v1.free| == CLASSES
    && PagesAsked(v, size) > 0 && Unused(v, page, PagesAsked(v, size))
  }

  // They are given back and the heap is as before; bitmaps, page mappings and, page tables aside, the
  // frame pools are as before exactly when the kernel asked, or the kernel pages are a multiple of 8, or
  // the first user frame was in use before.
  lemma FreeUndoesNewPages(L: Layout, vm: Vm, vm1: Vm, vm2: Vm, kernel: bool, v: HeapView, v1: HeapView, size: nat, page: nat, b: nat)
    requires Sound(L, vm) && TookPages(v, v1, size, page, b)
    requires Supplied(L, vm, vm1, kernel, PagesAsked(v, size), page, Ptr(b))
    requires Live(v1, b) ==> PagesReturned(L, vm1, vm2, kernel, v1, b)
    ensures Live(v1, b) && Free(v1, b) == v
    ensures Restored(L, vm, vm2, kernel) <==> Undoable(L, vm, kernel)
  {
    PagesGoBack(v, v1, size, page, b);
    hide HeapOk, Sound, Free, Live, Palloc, Pfree, Restored, Undoable, TookPages;
    var n := PagesAsked(v, size);
    assert Palloc(L, vm, kernel, n) == Got(page / PAGE_WORDS, vm1);
    UndoneIff(L, vm, kernel, n);
  }

  lemma PagesGoBack(v: HeapView, v1: HeapView, size: nat, page: nat, b: nat)
    requires TookPages(v, v1, size, page, b)
    ensures Live(v1, b) && Free(v1, b) == v && ArenaOf(b) == page && page !in v.arenas
    ensures page in v1.arenas && Pages(v1.arenas[page]) == PagesAsked(v, size)
  {
    var n := PagesAsked(v, size);
    UnusedIsNew(v, page, n);
    if size <= 1024 {
      var k := ClassOf(size);
      FreeUndoesMallocSmall(v, k, page);
      BlockPlace(page, k, 0);
      UndoesFresh(v, k, page);
    } else {
      FreeUndoesMallocLarge(v, page, n);
    }
  }
}
