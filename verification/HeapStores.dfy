// The stores of the allocator and of its users, done through the page tables: the heap's words are the
// words that its pages' frames hold (source/kernel/memory.c:417-564).
module HeapStores {
  import opened Basics
  import opened HeapSpec
  import opened HeapPages
  import opened Frames
  import opened Paging
  import opened Spaces
  import opened Vmem
  import opened VmemData

  // The page of address a in the kernel's or process proc's memory.
  function At(kernel: bool, proc: nat, a: nat): Place { HeapPlace(kernel, proc, a / PAGE_WORDS) }

  predicate OnData(vm: Vm, kernel: bool, proc: nat, a: nat) { DataPage(vm, At(kernel, proc, a)) }

  // The word at a, read through the page tables.
  function SeenAt(vm: Vm, kernel: bool, proc: nat, a: nat): nat
    requires OnData(vm, kernel, proc, a)
  {
    Seen(vm, At(kernel, proc, a), a % PAGE_WORDS)
  }

  // A sequence of stores: address and value.
  type Stores = seq<(nat, nat)>

  function StoreAll(vm: Vm, kernel: bool, proc: nat, ss: Stores): Vm
    decreases |ss|
  {
    if ss == [] then vm
    else
      var vm1, (a, x) := StoreAll(vm, kernel, proc, ss[..|ss| - 1]), ss[|ss| - 1];
      if OnData(vm1, kernel, proc, a) then Store(vm1, At(kernel, proc, a), a % PAGE_WORDS, x) else vm1
  }

  // The value last stored at a.
  function Last(ss: Stores, a: nat): Option<nat>
    decreases |ss|
  {
    if ss == [] then None else if ss[|ss| - 1].0 == a then Some(ss[|ss| - 1].1) else Last(ss[..|ss| - 1], a)
  }

  // Stores to data pages change exactly the words stored to, and no translation.
  ghost predicate StoredTo(L: Layout, vm: Vm, vm': Vm, kernel: bool, proc: nat, ss: Stores)
  {
    && Sound(L, vm') && vm' == vm.(phys := vm'.phys)
    && (forall y: Place | DataPage(vm, y) :: DataPage(vm', y) && Backing(vm'.phys, vm.dirs, y) == Backing(vm.phys, vm.dirs, y))
    && (forall a: nat | OnData(vm, kernel, proc, a) ::
          SeenAt(vm', kernel, proc, a) == match Last(ss, a) case Some(x) => x case None => SeenAt(vm, kernel, proc, a))
  }

  lemma {:induction false} StoreAllIs(L: Layout, vm: Vm, kernel: bool, proc: nat, ss: Stores)
    requires Sound(L, vm) && forall s | s in ss :: OnData(vm, kernel, proc, s.0)
    ensures StoredTo(L, vm, StoreAll(vm, kernel, proc, ss), kernel, proc, ss)
    decreases |ss|
  {
    hide StoredTo, Sound, DataPage, Store, Last;
    if ss == [] {
      NoStores(L, vm, kernel, proc);
    } else {
      var n := |ss| - 1;
      var (a, x) := ss[n];
      assert ss[n] in ss;
      StoreAllIs(L, vm, kernel, proc, ss[..n]);
      OneMoreStore(L, vm, StoreAll(vm, kernel, proc, ss[..n]), kernel, proc, ss[..n], a, x);
      assert ss == ss[..n] + [(a, x)];
    }
  }

  lemma NoStores(L: Layout, vm: Vm, kernel: bool, proc: nat)
    requires Sound(L, vm)
    ensures StoredTo(L, vm, vm, kernel, proc, [])
  {
    hide Sound, DataPage;
  }

  lemma OneMoreStore(L: Layout, vm: Vm, vm1: Vm, kernel: bool, proc: nat, ss: Stores, a: nat, x: nat)
    requires StoredTo(L, vm, vm1, kernel, proc, ss) && OnData(vm, kernel, proc, a)
    ensures OnData(vm1, kernel, proc, a)
    ensures StoredTo(L, vm, Store(vm1, At(kernel, proc, a), a % PAGE_WORDS, x), kernel, proc, ss + [(a, x)])
  {
    hide Sound, Seen, DataPage, Backing;
    var z, i := At(kernel, proc, a), a % PAGE_WORDS;
    var vm' := Store(vm1, z, i, x);
    StoreThrough(L, vm1, z, i, x);
    StoreOnly(vm1, z, i, x);
    forall y: Place | DataPage(vm, y) ensures DataPage(vm', y) && Managed(vm.dirs, y) && Backing(vm'.phys, vm.dirs, y) == Backing(vm.phys, vm.dirs, y) {
      DataIsManaged(vm, y);
      assert DataPage(vm1, y);
    }
    forall b: nat | OnData(vm, kernel, proc, b)
      ensures OnData(vm', kernel, proc, b)
      ensures SeenAt(vm', kernel, proc, b) == match Last(ss + [(a, x)], b) case Some(v) => v case None => SeenAt(vm, kernel, proc, b)
    {
      assert DataPage(vm1, At(kernel, proc, b));
      SameWord(kernel, proc, a, b);
      assert (ss + [(a, x)])[..|ss|] == ss;
    }
  }

  lemma StoreOnly(vm: Vm, x: Place, i: nat, v: nat)
    requires DataPage(vm, x)
    ensures Store(vm, x, i, v) == vm.(phys := Store(vm, x, i, v).phys)
  {
  }

  lemma DataIsManaged(vm: Vm, y: Place)
    requires DataPage(vm, y)
    ensures Managed(vm.dirs, y)
  {
  }

  lemma SameWord(kernel: bool, proc: nat, a: nat, b: nat)
    ensures At(kernel, proc, a) == At(kernel, proc, b) && a % PAGE_WORDS == b % PAGE_WORDS <==> a == b
  {
  }

  // ----- the heap's words

  // Page g shows what `words` says.
  ghost predicate Shown(vm: Vm, kernel: bool, proc: nat, words: Memory, g: nat)
  {
    && DataPage(vm, HeapPlace(kernel, proc, g))
    && forall a: nat | a / PAGE_WORDS == g :: Load(words, a) == SeenAt(vm, kernel, proc, a)
  }

  // The coupling: every word of every page of the arenas, read through the page tables, is the heap's.
  ghost predicate Mirror(vm: Vm, kernel: bool, proc: nat, arenas: map<nat, Kind>, words: Memory)
  {
    forall p: nat, g: nat | ArenaPage(arenas, p, g) :: Shown(vm, kernel, proc, words, g)
  }

  ghost predicate OnHeap(arenas: map<nat, Kind>, a: nat)
  {
    exists p: nat :: ArenaPage(arenas, p, a / PAGE_WORDS)
  }

  // The stores lead from `words` to `words'`: a word not stored to was there before.
  ghost predicate Matches(ss: Stores, words: Memory, words': Memory, before: map<nat, Kind>, after: map<nat, Kind>)
  {
    && (forall s | s in ss :: OnHeap(after, s.0))
    && forall a: nat | OnHeap(after, a) ::
         match Last(ss, a) case Some(x) => Load(words', a) == x case None => OnHeap(before, a) && Load(words', a) == Load(words, a)
  }

  lemma MirrorStores(L: Layout, vm: Vm, kernel: bool, proc: nat, ss: Stores, words: Memory, words': Memory,
                     before: map<nat, Kind>, after: map<nat, Kind>)
    requires Sound(L, vm) && PagesHeld(vm, kernel, proc, after) && Mirror(vm, kernel, proc, before, words)
    requires Matches(ss, words, words', before, after)
    ensures var vm' := StoreAll(vm, kernel, proc, ss);
            StoredTo(L, vm, vm', kernel, proc, ss) && Mirror(vm', kernel, proc, after, words')
  {
    hide Sound, DataPage, SeenAt, Seen, Held, StoredTo, Mirror;
    forall s | s in ss ensures OnData(vm, kernel, proc, s.0) { HeapIsData(L, vm, kernel, proc, after, s.0); }
    StoreAllIs(L, vm, kernel, proc, ss);
    var vm' := StoreAll(vm, kernel, proc, ss);
    forall p: nat, g: nat | ArenaPage(after, p, g) ensures Shown(vm', kernel, proc, words', g) {
      ShownAfter(L, vm, vm', kernel, proc, ss, words, words', before, after, p, g);
    }
    MirrorOf(vm', kernel, proc, after, words');
  }

  lemma MirrorOf(vm: Vm, kernel: bool, proc: nat, arenas: map<nat, Kind>, words: Memory)
    requires forall p: nat, g: nat | ArenaPage(arenas, p, g) :: Shown(vm, kernel, proc, words, g)
    ensures Mirror(vm, kernel, proc, arenas, words)
  {
  }

  lemma HeapIsData(L: Layout, vm: Vm, kernel: bool, proc: nat, arenas: map<nat, Kind>, a: nat)
    requires Sound(L, vm) && PagesHeld(vm, kernel, proc, arenas) && OnHeap(arenas, a)
    ensures OnData(vm, kernel, proc, a)
  {
    hide VmOk, Held, DataPage;
    var p: nat :| ArenaPage(arenas, p, a / PAGE_WORDS);
    var o: Owners :| VmOk(L, vm, o);
    HeldIsData(L, vm, o, kernel, proc, a / PAGE_WORDS);
  }

  lemma ShownAfter(L: Layout, vm: Vm, vm': Vm, kernel: bool, proc: nat, ss: Stores, words: Memory, words': Memory,
                   before: map<nat, Kind>, after: map<nat, Kind>, p: nat, g: nat)
    requires Sound(L, vm) && PagesHeld(vm, kernel, proc, after) && Mirror(vm, kernel, proc, before, words)
    requires Matches(ss, words, words', before, after) && StoredTo(L, vm, vm', kernel, proc, ss) && ArenaPage(after, p, g)
    ensures Shown(vm', kernel, proc, words', g)
  {
    hide Sound, DataPage, SeenAt, Seen, Held, PagesHeld, ArenaPage;
    var first := g * PAGE_WORDS;
    assert first / PAGE_WORDS == g;
    assert OnHeap(after, first);
    HeapIsData(L, vm, kernel, proc, after, first);
    forall a: nat | a / PAGE_WORDS == g ensures Load(words', a) == SeenAt(vm', kernel, proc, a) {
      assert OnHeap(after, a) && OnData(vm, kernel, proc, a);
      if Last(ss, a) == None {
        var q: nat :| ArenaPage(before, q, a / PAGE_WORDS);
        assert Shown(vm, kernel, proc, words, g);
      }
    }
  }

  // Page operations that keep the arenas' pages keep the coupling.
  lemma MirrorKept(vm: Vm, vm': Vm, kernel: bool, proc: nat, arenas: map<nat, Kind>, words: Memory)
    requires PagesKept(vm, vm', kernel, proc, arenas) && Mirror(vm, kernel, proc, arenas, words)
    ensures Mirror(vm', kernel, proc, arenas, words)
  {
    hide DataPage, Preserved, Seen, ArenaPage;
    forall p: nat, g: nat | ArenaPage(arenas, p, g) ensures Shown(vm', kernel, proc, words, g) {
      assert Shown(vm, kernel, proc, words, g);
      var x := HeapPlace(kernel, proc, g);
      forall a: nat | a / PAGE_WORDS == g ensures OnData(vm', kernel, proc, a) && Load(words, a) == SeenAt(vm', kernel, proc, a) {
        PreservedSeen(vm, vm', x, a % PAGE_WORDS);
      }
      PreservedSeen(vm, vm', x, 0);
    }
  }

  lemma PreservedSeen(vm: Vm, vm': Vm, x: Place, i: nat)
    requires DataPage(vm, x) && Preserved(vm, vm', x) && i < PAGE_WORDS
    ensures DataPage(vm', x) && Seen(vm', x, i) == Seen(vm, x, i)
  {
    var f := Backing(vm.phys, vm.dirs, x).value;
    assert f * DIRECTORY <= f * DIRECTORY + i < (f + 1) * DIRECTORY;
  }

  // Any change of the heap's words can be made by such stores.
  lemma Realise(words: Memory, words': Memory, before: map<nat, Kind>, after: map<nat, Kind>) returns (ss: Stores)
    requires ArenasOk(after)
    ensures Matches(ss, words, words', before, after)
  {
    hide Last, OnHeap;
    var all := AllWords(after);
    ss := ListStores(all, words');
  }

  // The words of the arenas are finitely many.
  lemma {:induction false} AllWords(arenas: map<nat, Kind>) returns (all: set<nat>)
    requires ArenasOk(arenas)
    ensures forall a: nat :: a in all <==> OnHeap(arenas, a)
    decreases |arenas|
  {
    all := {};
    if arenas != map[] {
      var p :| p in arenas;
      var rest := AllWords(arenas - {p});
      var run := Interval(p, PAGE_WORDS * Pages(arenas[p]));
      all := rest + run;
      forall a: nat ensures a in all <==> OnHeap(arenas, a) { MoreWords(arenas, p, a); }
    }
  }

  lemma MoreWords(arenas: map<nat, Kind>, p: nat, a: nat)
    requires ArenasOk(arenas) && p in arenas
    ensures OnHeap(arenas, a) <==> OnHeap(arenas - {p}, a) || p <= a < p + PAGE_WORDS * Pages(arenas[p])
  {
    if p <= a < p + PAGE_WORDS * Pages(arenas[p]) {
      WordPage(arenas, p, a - p);
      assert ArenaPage(arenas, p, a / PAGE_WORDS);
    }
    if OnHeap(arenas, a) {
      var q: nat :| ArenaPage(arenas, q, a / PAGE_WORDS);
      if q == p { PageWord(arenas, p, a); } else { assert ArenaPage(arenas - {p}, q, a / PAGE_WORDS); }
    }
    if OnHeap(arenas - {p}, a) {
      var q: nat :| ArenaPage(arenas - {p}, q, a / PAGE_WORDS);
      assert ArenaPage(arenas, q, a / PAGE_WORDS);
    }
  }

  lemma WordPage(arenas: map<nat, Kind>, p: nat, i: nat)
    requires ArenasOk(arenas) && p in arenas && i < PAGE_WORDS * Pages(arenas[p])
    ensures ArenaPage(arenas, p, (p + i) / PAGE_WORDS)
  {
  }

  lemma PageWord(arenas: map<nat, Kind>, p: nat, a: nat)
    requires ArenasOk(arenas) && ArenaPage(arenas, p, a / PAGE_WORDS)
    ensures p <= a < p + PAGE_WORDS * Pages(arenas[p])
  {
  }

  lemma {:induction false} ListStores(all: set<nat>, words: Memory) returns (ss: Stores)
    ensures forall s | s in ss :: s.0 in all
    ensures forall a | a in all :: Last(ss, a) == Some(Load(words, a))
    decreases |all|
  {
    ss := [];
    if all != {} {
      var a :| a in all;
      var rest := ListStores(all - {a}, words);
      ss := rest + [(a, Load(words, a))];
      assert ss[..|ss| - 1] == rest;
    }
  }
}
