// The memory-level steps of sys_malloc and sys_free, each on the whole representation
// (source/kernel/memory.c:490-512 and 540-561).
module HeapSteps {
  import opened Basics
  import opened LinkedList
  import opened HeapSpec
  import opened HeapMemory

  function WithFree(v: HeapView, k: nat, f: seq<nat>): HeapView
    requires k < |v.free|
  {
    v.(free := v.free[k := f])
  }

  // ----- list operations stay in their class's territory

  lemma ListWorkConfined(w: Memory, w': Memory, D: nat, v: HeapView, k: nat, f: seq<nat>)
    requires |v.free| == CLASSES && k < CLASSES && ListOk(WithFree(v, k, f), k)
    requires forall a: nat | !Within(Nodes(ListAt(D, k), f), a) :: Load(w', a) == Load(w, a)
    ensures Confined(w, w', v.arenas, D, k)
  {
    forall a: nat | !Territory(v.arenas, D, k, a) ensures Load(w', a) == Load(w, a) {
      if Within(Nodes(ListAt(D, k), f), a) { NodeInTerritory(WithFree(v, k, f), D, k, a); }
    }
  }

  lemma BlockClearConfined(w: Memory, D: nat, v: HeapView, k: nat, b: nat)
    requires k < CLASSES && IsBlock(k, b) && ArenaOf(b) in v.arenas && v.arenas[ArenaOf(b)] == Small(k)
    ensures Confined(w, w + Zeros(b, BlockWords(k)), v.arenas, D, k)
  {
    forall a: nat | b <= a < b + BlockWords(k) ensures Territory(v.arenas, D, k, a) { BlockWordsInside(k, b, a - b); }
  }

  // ----- storing a count

  lemma CountStore(w: Memory, D: nat, v: HeapView, k: nat, p: nat, c: nat)
    requires RepBut(w, D, v, k) && k < CLASSES && ListOk(v, k) && Linked(w, ListAt(D, k), v.free[k])
    requires p in v.arenas && v.arenas[p] == Small(k)
    ensures RepBut(w[p + 1 := c], D, v, k) && Linked(w[p + 1 := c], ListAt(D, k), v.free[k])
  {
    var w' := w[p + 1 := c];
    StoreLoad(w, p + 1, c);
    forall m: nat | m < CLASSES ensures Linked(w', ListAt(D, m), v.free[m]) && ListOk(v, m) {
      forall a: nat | Within(Nodes(ListAt(D, m), v.free[m]), a) ensures Load(w', a) == Load(w, a) {
        NodeInTerritory(v, D, m, a);
        TerritoryAvoids(v, D, m, a);
      }
      LinkedFrame(w, w', ListAt(D, m), v.free[m]);
    }
    CountFields(w, D, v, k, p, c);
  }

  lemma CountFields(w: Memory, D: nat, v: HeapView, k: nat, p: nat, c: nat)
    requires RepBut(w, D, v, k) && k < CLASSES && p in v.arenas && v.arenas[p] == Small(k)
    ensures DescsOk(w[p + 1 := c], D) && forall q | q in v.arenas :: HeaderBut(w[p + 1 := c], D, v, q, k)
  {
    hide Linked, ListOk;
    var w' := w[p + 1 := c];
    StoreLoad(w, p + 1, c);
    assert D + DESC_WORDS <= p || p + PAGE_WORDS <= D;
    forall m: nat | m < CLASSES
      ensures Load(w', Desc(D, m)) == 4 * BlockWords(m) && Load(w', Desc(D, m) + 1) == BlockSum(m)
    {
      assert Load(w, Desc(D, m)) == 4 * BlockWords(m) && Load(w, Desc(D, m) + 1) == BlockSum(m);
    }
    forall q | q in v.arenas ensures HeaderBut(w', D, v, q, k) {
      assert HeaderBut(w, D, v, q, k);
      assert p % PAGE_WORDS == 0 && q % PAGE_WORDS == 0;
      if q != p { assert SameHeader(w, w', q); }
    }
  }

  // ----- taking the head of a free list: memory.c:508-512

  function TakenWords(w1: Memory, b: nat, k: nat): Memory
    requires k < CLASSES
  {
    var w2 := w1 + Zeros(b, BlockWords(k));
    w2[ArenaOf(b) + 1 := if Load(w2, ArenaOf(b) + 1) == 0 then 0xFFFFFFFF else Load(w2, ArenaOf(b) + 1) - 1]
  }

  // The memory after list_pop, seen by everything but the list.
  lemma PopRep(w: Memory, w1: Memory, D: nat, v: HeapView, k: nat)
    requires Rep(w, D, v) && k < CLASSES && v.free[k] != []
    requires Linked(w1, ListAt(D, k), v.free[k][1..])
    requires forall a: nat | !Within(Nodes(ListAt(D, k), v.free[k]), a) :: Load(w1, a) == Load(w, a)
    ensures RepBut(w1, D, Take(v, k), k) && ListOk(Take(v, k), k)
    ensures forall p | p in v.arenas && v.arenas[p] == Small(k) :: Load(w1, p + 1) == Count(v, p)
  {
    RepSplits(w, D, v, k);
    var f := v.free[k];
    assert WithFree(v, k, f) == v by { assert v.free[k := f] == v.free; }
    ListWorkConfined(w, w1, D, v, k, f);
    RepButKept(w, w1, D, v, f[1..], k);
    TailMembers(f);
    FieldsKept(w, w1, D, v, k);
    forall p | p in v.arenas && v.arenas[p] == Small(k) ensures Load(w1, p + 1) == Count(v, p) { assert SameHeader(w, w1, p); }
  }

  // Clearing a block that is not on the list.
  lemma ClearRep(w: Memory, D: nat, v: HeapView, k: nat, b: nat)
    requires RepBut(w, D, v, k) && k < CLASSES && ListOk(v, k) && Linked(w, ListAt(D, k), v.free[k])
    requires IsBlock(k, b) && b !in v.free[k] && ArenaOf(b) in v.arenas && v.arenas[ArenaOf(b)] == Small(k)
    ensures var w' := w + Zeros(b, BlockWords(k));
            && RepBut(w', D, v, k) && Linked(w', ListAt(D, k), v.free[k])
            && forall p | p in v.arenas :: SameHeader(w, w', p)
  {
    var w' := w + Zeros(b, BlockWords(k));
    BlockClearConfined(w, D, v, k, b);
    RepButKept(w, w', D, v, v.free[k], k);
    assert v.free[k := v.free[k]] == v.free;
    FieldsKept(w, w', D, v, k);
    forall a: nat | Within(Nodes(ListAt(D, k), v.free[k]), a) ensures Load(w', a) == Load(w, a) {
      NodeOutsideBlock(v, D, k, b, a);
    }
    LinkedFrame(w, w', ListAt(D, k), v.free[k]);
  }

  lemma NodeOutsideBlock(v: HeapView, D: nat, k: nat, b: nat, a: nat)
    requires |v.free| == CLASSES && ArenasOk(v.arenas) && DescsApart(D, v.arenas) && k < CLASSES && ListOk(v, k)
    requires IsBlock(k, b) && b !in v.free[k] && ArenaOf(b) in v.arenas && v.arenas[ArenaOf(b)] == Small(k)
    requires Within(Nodes(ListAt(D, k), v.free[k]), a)
    ensures !(b <= a < b + BlockWords(k))
  {
    var ns := Nodes(ListAt(D, k), v.free[k]);
    var x := if a in ns then a else a - 1;
    BlockBack(k, b);
    if x in v.free[k] { FreeBlocksApart(v.arenas, k, b, x); }
  }

  lemma HeadFacts(w: Memory, D: nat, v: HeapView, k: nat)
    requires Rep(w, D, v) && k < CLASSES && v.free[k] != []
    ensures var b := v.free[k][0];
            && Distinct(v.free[k]) && IsBlock(k, b) && b !in Take(v, k).free[k]
            && ArenaOf(b) in v.arenas && v.arenas[ArenaOf(b)] == Small(k)
            && forall q | q in v.arenas :: q % PAGE_WORDS == 0
  {
    assert ListOk(v, k) && v.free[k][0] in v.free[k];
    TailMembers(v.free[k]);
  }

  lemma TakeRep(w: Memory, w1: Memory, D: nat, v: HeapView, k: nat)
    requires Rep(w, D, v) && k < CLASSES && v.free[k] != []
    requires Linked(w1, ListAt(D, k), v.free[k][1..])
    requires forall a: nat | !Within(Nodes(ListAt(D, k), v.free[k]), a) :: Load(w1, a) == Load(w, a)
    ensures Rep(TakenWords(w1, v.free[k][0], k), D, Take(v, k))
  {
    PopRep(w, w1, D, v, k);
    HeadFacts(w, D, v, k);
    FinishTake(w1, D, v, k);
  }

  lemma FinishTake(w1: Memory, D: nat, v: HeapView, k: nat)
    requires |v.free| == CLASSES && k < CLASSES && v.free[k] != [] && Distinct(v.free[k])
    requires var b := v.free[k][0];
             && IsBlock(k, b) && b !in Take(v, k).free[k] && ArenaOf(b) in v.arenas && v.arenas[ArenaOf(b)] == Small(k)
    requires forall q | q in v.arenas :: q % PAGE_WORDS == 0
    requires RepBut(w1, D, Take(v, k), k) && ListOk(Take(v, k), k) && Linked(w1, ListAt(D, k), Take(v, k).free[k])
    requires forall p | p in v.arenas && v.arenas[p] == Small(k) :: Load(w1, p + 1) == Count(v, p)
    ensures Rep(TakenWords(w1, v.free[k][0], k), D, Take(v, k))
  {
    hide Rep, RepBut, Linked, ListOk;
    var b, v' := v.free[k][0], Take(v, k);
    var p := ArenaOf(b);
    ClearRep(w1, D, v', k, b);
    var w2 := w1 + Zeros(b, BlockWords(k));
    assert SameHeader(w1, w2, p);
    CountTaken(v.free[k], k, p);
    assert Load(w2, p + 1) == Count(v, p) >= 1;
    var c := Load(w2, p + 1) - 1;
    CountStore(w2, D, v', k, p, c);
    StoreLoad(w2, p + 1, c);
    var w3 := TakenWords(w1, b, k);
    forall q | q in v'.arenas && v'.arenas[q] == Small(k) ensures Load(w3, q + 1) == Count(v', q) {
      assert SameHeader(w1, w2, q);
      CountTaken(v.free[k], k, q);
    }
    RepJoins(w3, D, v', k);
  }

  // ----- putting a block back: memory.c:549-550

  lemma AppendRepBut(w: Memory, w1: Memory, D: nat, v: HeapView, k: nat, b: nat)
    requires k < CLASSES && RepBut(w, D, v, k) && ListOk(v, k)
    requires IsBlock(k, b) && b !in v.free[k] && ArenaOf(b) in v.arenas && v.arenas[ArenaOf(b)] == Small(k)
    requires forall a: nat | !Within(Nodes(ListAt(D, k), v.free[k]), a) && a != b && a != b + 1 :: Load(w1, a) == Load(w, a)
    ensures RepBut(w1, D, WithFree(v, k, v.free[k] + [b]), k) && ListOk(WithFree(v, k, v.free[k] + [b]), k)
    ensures forall p | p in v.arenas :: SameHeader(w, w1, p)
  {
    var f := v.free[k] + [b];
    var v' := WithFree(v, k, f);
    assert ListOk(v', k);
    forall a: nat | !Within(Nodes(ListAt(D, k), f), a) ensures Load(w1, a) == Load(w, a) {
      NodesOfAppend(ListAt(D, k), v.free[k], b, a);
    }
    ListWorkConfined(w, w1, D, v, k, f);
    RepButKept(w, w1, D, v, f, k);
    FieldsKept(w, w1, D, v, k);
  }

  lemma NodesOfAppend(l: nat, f: seq<nat>, b: nat, a: nat)
    requires !Within(Nodes(l, f + [b]), a)
    ensures !Within(Nodes(l, f), a) && a != b && a != b + 1
  {
    var g, h := Nodes(l, f), Nodes(l, f + [b]);
    assert forall x | x in g :: x in h;
    assert b in f + [b];
    assert b in h;
  }

  lemma GiveRep(w: Memory, w1: Memory, D: nat, v: HeapView, k: nat, b: nat)
    requires Rep(w, D, v) && k < CLASSES
    requires IsBlock(k, b) && b !in v.free[k] && ArenaOf(b) in v.arenas && v.arenas[ArenaOf(b)] == Small(k)
    requires Linked(w1, ListAt(D, k), v.free[k] + [b])
    requires forall a: nat | !Within(Nodes(ListAt(D, k), v.free[k]), a) && a != b && a != b + 1 :: Load(w1, a) == Load(w, a)
    ensures Load(w1, ArenaOf(b) + 1) == Count(v, ArenaOf(b))
    ensures Rep(w1[ArenaOf(b) + 1 := Count(v, ArenaOf(b)) + 1], D, WithFree(v, k, v.free[k] + [b]))
    ensures Count(WithFree(v, k, v.free[k] + [b]), ArenaOf(b)) == Count(v, ArenaOf(b)) + 1
  {
    RepSplits(w, D, v, k);
    ShapeAligned(v);
    hide Rep, RepBut, Linked, ListOk, Shape;
    var f, p := v.free[k] + [b], ArenaOf(b);
    var v' := WithFree(v, k, f);
    AppendRepBut(w, w1, D, v, k, b);
    assert SameHeader(w, w1, p);
    CountAdded(v.free[k], b, k, p);
    var w2 := w1[p + 1 := Count(v, p) + 1];
    CountStore(w1, D, v', k, p, Count(v, p) + 1);
    StoreLoad(w1, p + 1, Count(v, p) + 1);
    forall q | q in v'.arenas && v'.arenas[q] == Small(k) ensures Load(w2, q + 1) == Count(v', q) {
      assert SameHeader(w, w1, q);
      CountAdded(v.free[k], b, k, q);
    }
    RepJoins(w2, D, v', k);
  }

  lemma ShapeAligned(v: HeapView)
    requires Shape(v)
    ensures forall q | q in v.arenas :: q % PAGE_WORDS == 0
  {
  }

  // ----- a fresh arena: memory.c:490-506

  // The page cleared and its header written.
  function HeaderWords(w: Memory, p: nat, n: nat, desc: nat, count: nat, large: nat): Memory
  {
    (w + Zeros(p, PAGE_WORDS * n))[p := desc][p + 1 := count][p + 2 := large]
  }

  lemma HeaderWordsAt(w: Memory, p: nat, n: nat, desc: nat, count: nat, large: nat)
    requires 1 <= n
    ensures var w' := HeaderWords(w, p, n, desc, count, large);
            && Load(w', p) == desc && Load(w', p + 1) == count && Load(w', p + 2) == large
            && (forall a: nat | p + HEADER_WORDS <= a < p + PAGE_WORDS * n :: Load(w', a) == 0)
            && (forall a: nat | !(p <= a < p + PAGE_WORDS * n) :: Load(w', a) == Load(w, a))
  {
  }

  // A page run outside all arenas and the descriptors is outside the representation.
  lemma NewHeaderRep(w: Memory, w': Memory, D: nat, v: HeapView, p: nat, a: Kind)
    requires Rep(w, D, v) && Unused(v, p, Pages(a)) && DescsApart(D, v.arenas[p := a]) && ArenasOk(v.arenas[p := a]) && p !in v.arenas
    requires forall x: nat | !(p <= x < p + PAGE_WORDS * Pages(a)) :: Load(w', x) == Load(w, x)
    ensures DescsOk(w', D) && forall m: nat | m < CLASSES :: Linked(w', ListAt(D, m), v.free[m])
    ensures forall q | q in v.arenas :: SameHeader(w, w', q)
  {
    var after := v.arenas[p := a];
    assert p in after && after[p] == a;
    assert D + DESC_WORDS <= p || p + PAGE_WORDS * Pages(a) <= D;
    forall m: nat | m < CLASSES ensures Linked(w', ListAt(D, m), v.free[m]) {
      forall x: nat | Within(Nodes(ListAt(D, m), v.free[m]), x) ensures Load(w', x) == Load(w, x) {
        NodeInTerritory(v, D, m, x);
        TerritoryOutside(v, D, m, p, Pages(a), x);
      }
      LinkedFrame(w, w', ListAt(D, m), v.free[m]);
    }
    forall q | q in v.arenas ensures SameHeader(w, w', q) { assert q + PAGE_WORDS <= p || p + PAGE_WORDS * Pages(a) <= q; }
    forall m: nat | m < CLASSES
      ensures Load(w', Desc(D, m)) == 4 * BlockWords(m) && Load(w', Desc(D, m) + 1) == BlockSum(m)
    {
      assert Load(w, Desc(D, m)) == 4 * BlockWords(m) && Load(w, Desc(D, m) + 1) == BlockSum(m);
    }
  }

  lemma TerritoryOutside(v: HeapView, D: nat, m: nat, p: nat, n: nat, x: nat)
    requires Unused(v, p, n) && m < CLASSES && Territory(v.arenas, D, m, x)
    requires D + DESC_WORDS <= p || p + PAGE_WORDS * n <= D
    ensures !(p <= x < p + PAGE_WORDS * n)
  {
    if ArenaOf(x) in v.arenas && v.arenas[ArenaOf(x)] == Small(m) { assert ArenaOf(x) <= x < ArenaOf(x) + PAGE_WORDS; }
  }

  lemma LargeRep(w: Memory, D: nat, v: HeapView, p: nat, n: nat)
    requires Rep(w, D, v) && 1 <= n && Unused(v, p, n) && DescsApart(D, v.arenas[p := Large(n)]) && HeapOk(v)
    ensures Rep(HeaderWords(w, p, n, 0, n, 1), D, MallocLarge(v, p, n))
  {
    var w', v' := HeaderWords(w, p, n, 0, n, 1), MallocLarge(v, p, n);
    MallocLargeOk(v, p, n);
    UnusedIsNew(v, p, n);
    HeaderWordsAt(w, p, n, 0, n, 1);
    NewHeaderRep(w, w', D, v, p, Large(n));
    forall q | q in v'.arenas ensures HeaderAt(w', D, q, v'.arenas[q], Count(v', q)) {
      if q != p { assert SameHeader(w, w', q) && HeaderAt(w, D, q, v.arenas[q], Count(v, q)); }
    }
  }

  // A small arena whose blocks are not yet on the list, which is empty.
  lemma SmallHeaderRep(w: Memory, D: nat, v: HeapView, k: nat, p: nat)
    requires Rep(w, D, v) && HeapOk(v) && k < CLASSES && v.free[k] == [] && Unused(v, p, 1) && DescsApart(D, v.arenas[p := Small(k)])
    ensures var w', v' := HeaderWords(w, p, 1, Desc(D, k), BlockSum(k), 0), HeapView(v.arenas[p := Small(k)], v.free);
            && RepBut(w', D, v', k) && ListOk(v', k) && Linked(w', ListAt(D, k), v'.free[k]) && p !in v.arenas
            && (forall q | q in v.arenas :: SameHeader(w, w', q)) && Load(w', p + 1) == BlockSum(k)
  {
    var w', v' := HeaderWords(w, p, 1, Desc(D, k), BlockSum(k), 0), HeapView(v.arenas[p := Small(k)], v.free);
    UnusedIsNew(v, p, 1);
    HeaderWordsAt(w, p, 1, Desc(D, k), BlockSum(k), 0);
    NewHeaderRep(w, w', D, v, p, Small(k));
    forall m: nat | m < CLASSES ensures ListOk(v', m) { assert ListOk(v, m); }
    forall q | q in v'.arenas ensures HeaderBut(w', D, v', q, k) {
      if q != p { assert SameHeader(w, w', q) && HeaderAt(w, D, q, v.arenas[q], Count(v, q)); }
    }
  }

  // With i blocks appended.
  function Growing(v: HeapView, p: nat, k: nat, i: nat): HeapView
    requires k < CLASSES && |v.free| == CLASSES
  {
    HeapView(v.arenas[p := Small(k)], v.free[k := Fresh(p, k, i)])
  }

  lemma FreshLacks(p: nat, k: nat, i: nat)
    requires k < CLASSES && i < BlockSum(k) && p % PAGE_WORDS == 0
    ensures Block(p, k, i) !in Fresh(p, k, i)
  {
    var s := Fresh(p, k, i);
    forall n: nat | n < i ensures s[n] != Block(p, k, i) { BlockStrict(p, k, n, i); }
  }

  lemma BlockStrict(p: nat, k: nat, n: nat, i: nat)
    requires k < CLASSES && n < i
    ensures Block(p, k, n) < Block(p, k, i)
  {
  }

  lemma FreshCount(p: nat, k: nat)
    requires k < CLASSES
    ensures |FreeIn(Fresh(p, k, BlockSum(k)), p, k)| == BlockSum(k)
  {
    var all := Fresh(p, k, BlockSum(k));
    forall i: nat | i < BlockSum(k) ensures Block(p, k, i) in all { assert all[i] == Block(p, k, i); }
    FullIff(all, p, k);
  }

  // All blocks on the list: the arena's count is right, and every other count is still zero.
  lemma GrownRep(w: Memory, D: nat, v: HeapView, k: nat, p: nat)
    requires |v.free| == CLASSES && k < CLASSES && v.free[k] == []
    requires RepBut(w, D, Grow(v, p, k), k) && ListOk(Grow(v, p, k), k) && Linked(w, ListAt(D, k), Grow(v, p, k).free[k])
    requires Load(w, p + 1) == BlockSum(k)
    requires forall q | q in v.arenas && q != p && v.arenas[q] == Small(k) :: Load(w, q + 1) == Count(v, q)
    ensures Rep(w, D, Grow(v, p, k))
  {
    hide RepBut, ListOk, Linked, Rep, FreeIn, BlockSum, Load, Count;
    var v' := Grow(v, p, k);
    ButAligned(w, D, v', k);
    assert p in v'.arenas;
    forall q | q in v'.arenas && v'.arenas[q] == Small(k) ensures Load(w, q + 1) == Count(v', q) { GrownCount(v, p, k, q); }
    RepJoins(w, D, v', k);
  }

  lemma GrownCount(v: HeapView, p: nat, k: nat, q: nat)
    requires |v.free| == CLASSES && k < CLASSES && v.free[k] == [] && p % PAGE_WORDS == 0 && q % PAGE_WORDS == 0
    requires q == p || (q in v.arenas && v.arenas[q] == Small(k))
    ensures Count(Grow(v, p, k), q) == if q == p then BlockSum(k) else Count(v, q)
  {
    var all := Fresh(p, k, BlockSum(k));
    assert [] + all == all && Grow(v, p, k).free[k] == all;
    FreshCount(p, k);
    hide FreeIn, BlockSum;
    if q != p {
      NoneOfOthers(p, k, q, all);
      NoneOfNone(k, q);
    }
  }

  lemma ButAligned(w: Memory, D: nat, v: HeapView, k: nat)
    requires RepBut(w, D, v, k)
    ensures forall q | q in v.arenas :: q % PAGE_WORDS == 0
  {
  }

  lemma NoneOfNone(k: nat, q: nat)
    requires k < CLASSES
    ensures FreeIn([], q, k) == {}
  {
  }

  lemma NoneOfOthers(p: nat, k: nat, q: nat, all: seq<nat>)
    requires k < CLASSES && p % PAGE_WORDS == 0 && q % PAGE_WORDS == 0 && q != p && all == Fresh(p, k, BlockSum(k))
    ensures FreeIn(all, q, k) == {}
  {
    forall i: nat | i < BlockSum(k) ensures Block(q, k, i) !in all {
      BlockPlace(q, k, i);
      forall j: nat | j < BlockSum(k) ensures all[j] != Block(q, k, i) { BlockPlace(p, k, j); }
    }
  }

  // ----- a page given back: memory.c:553-559

  // f without element e, order kept.
  function Minus(f: seq<nat>, e: nat): (r: seq<nat>)
    ensures forall x :: x in r <==> x in f && x != e
  {
    if f == [] then []
    else if f[|f| - 1] == e then Minus(f[..|f| - 1], e)
    else Minus(f[..|f| - 1], e) + [f[|f| - 1]]
  }

  lemma {:induction false} MinusAbsent(f: seq<nat>, e: nat)
    requires e !in f
    ensures Minus(f, e) == f
  {
    if f != [] {
      MinusAbsent(f[..|f| - 1], e);
      assert f == f[..|f| - 1] + [f[|f| - 1]];
    }
  }

  lemma {:induction false} MinusAt(f: seq<nat>, j: nat)
    requires j < |f| && Distinct(f)
    ensures Minus(f, f[j]) == f[..j] + f[j + 1..] && Distinct(Minus(f, f[j]))
  {
    var n := |f| - 1;
    var g := f[..n];
    if j == n {
      assert f[j] !in g;
      MinusAbsent(g, f[j]);
      assert f[..j] + f[j + 1..] == g;
    } else {
      MinusAt(g, j);
      assert g[j] == f[j];
      assert f[..j] + f[j + 1..] == (g[..j] + g[j + 1..]) + [f[n]];
    }
  }

  // f without the first n blocks of arena p.
  function Drop(f: seq<nat>, p: nat, k: nat, n: nat): seq<nat>
    requires k < CLASSES
  {
    if n == 0 then f else Minus(Drop(f, p, k, n - 1), Block(p, k, n - 1))
  }

  lemma {:induction false} DropMembers(f: seq<nat>, p: nat, k: nat, n: nat)
    requires k < CLASSES && n <= BlockSum(k) && Distinct(f)
    ensures Distinct(Drop(f, p, k, n))
    ensures forall x :: x in Drop(f, p, k, n) <==> x in f && forall i: nat | i < n :: x != Block(p, k, i)
  {
    if n > 0 {
      DropMembers(f, p, k, n - 1);
      MinusDistinct(Drop(f, p, k, n - 1), Block(p, k, n - 1));
      hide Block, Minus, BlockSum;
    }
  }

  lemma MinusDistinct(g: seq<nat>, e: nat)
    requires Distinct(g)
    ensures Distinct(Minus(g, e))
  {
    if e in g {
      var j :| 0 <= j < |g| && g[j] == e;
      MinusAt(g, j);
    } else {
      MinusAbsent(g, e);
    }
  }

  lemma {:induction false} DropSnoc(f: seq<nat>, x: nat, p: nat, k: nat, n: nat)
    requires k < CLASSES
    ensures Drop(f + [x], p, k, n) ==
            if exists i: nat :: i < n && x == Block(p, k, i) then Drop(f, p, k, n) else Drop(f, p, k, n) + [x]
  {
    if n > 0 {
      DropSnoc(f, x, p, k, n - 1);
      var g := Drop(f, p, k, n - 1);
      if exists i: nat :: i < n - 1 && x == Block(p, k, i) {
      } else {
        assert (g + [x])[..|g|] == g;
        assert (exists i: nat :: i < n && x == Block(p, k, i)) <==> x == Block(p, k, n - 1);
      }
    }
  }

  // Removing the blocks one by one is removing them all.
  lemma {:induction false} DropAll(f: seq<nat>, p: nat, k: nat)
    requires k < CLASSES && p % PAGE_WORDS == 0 && forall x | x in f :: IsBlock(k, x)
    ensures Drop(f, p, k, BlockSum(k)) == Without(f, p)
  {
    if f == [] {
      DropNone(p, k, BlockSum(k));
    } else {
      var n := |f| - 1;
      DropAll(f[..n], p, k);
      assert f == f[..n] + [f[n]];
      DropSnoc(f[..n], f[n], p, k, BlockSum(k));
      assert f[n] in f;
      BlockBack(k, f[n]);
      assert (exists i: nat :: i < BlockSum(k) && f[n] == Block(p, k, i)) <==> ArenaOf(f[n]) == p by {
        if ArenaOf(f[n]) == p { assert f[n] == Block(p, k, IndexOf(k, f[n])); }
        forall i: nat | i < BlockSum(k) && f[n] == Block(p, k, i) ensures ArenaOf(f[n]) == p { BlockPlace(p, k, i); }
      }
    }
  }

  lemma {:induction false} DropNone(p: nat, k: nat, n: nat)
    requires k < CLASSES
    ensures Drop([], p, k, n) == []
  {
    if n > 0 { DropNone(p, k, n - 1); }
  }

  lemma RemoveRepBut(w: Memory, w1: Memory, D: nat, v: HeapView, k: nat, e: nat)
    requires k < CLASSES && RepBut(w, D, v, k) && ListOk(v, k)
    requires forall a: nat | !Within(Nodes(ListAt(D, k), v.free[k]), a) :: Load(w1, a) == Load(w, a)
    requires Distinct(Minus(v.free[k], e))
    ensures RepBut(w1, D, WithFree(v, k, Minus(v.free[k], e)), k) && ListOk(WithFree(v, k, Minus(v.free[k], e)), k)
    ensures forall p | p in v.arenas :: SameHeader(w, w1, p)
  {
    assert WithFree(v, k, v.free[k]) == v by { assert v.free[k := v.free[k]] == v.free; }
    ListWorkConfined(w, w1, D, v, k, v.free[k]);
    RepButKept(w, w1, D, v, Minus(v.free[k], e), k);
    FieldsKept(w, w1, D, v, k);
  }

  // An arena none of whose blocks is on the list can be forgotten.
  lemma ForgetRep(w: Memory, D: nat, v: HeapView, k: nat, p: nat, b: nat)
    requires k < CLASSES && |v.free| == CLASSES && p == ArenaOf(b) && p in v.arenas && v.arenas[p] == Small(k)
    requires var u := WithFree(v, k, Without(v.free[k] + [b], p));
             RepBut(w, D, u, k) && ListOk(u, k) && Linked(w, ListAt(D, k), u.free[k])
    requires forall q | q in v.arenas && q != p && v.arenas[q] == Small(k) :: Load(w, q + 1) == Count(v, q)
    ensures Rep(w, D, Released(v, b, k))
  {
    var u, r := WithFree(v, k, Without(v.free[k] + [b], p)), Released(v, b, k);
    forall m: nat | m < CLASSES ensures ListOk(r, m) {
      assert ListOk(u, m);
      forall x | x in r.free[m] ensures ArenaOf(x) in r.arenas {
        assert ArenaOf(x) in u.arenas && u.arenas[ArenaOf(x)] == Small(m);
      }
    }
    forall q | q in r.arenas ensures HeaderBut(w, D, r, q, k) { assert HeaderBut(w, D, u, q, k); }
    forall q | q in r.arenas && r.arenas[q] == Small(k) ensures Load(w, q + 1) == Count(r, q) {
      assert q % PAGE_WORDS == 0;
      WithoutCount(v.free[k], b, k, q);
    }
    RepJoins(w, D, r, k);
  }

  lemma ForgetLarge(w: Memory, D: nat, v: HeapView, p: nat)
    requires Rep(w, D, v) && p in v.arenas && v.arenas[p].Large?
    ensures Rep(w, D, v.(arenas := v.arenas - {p}))
  {
    var r := v.(arenas := v.arenas - {p});
    forall m: nat | m < CLASSES ensures ListOk(r, m) { assert ListOk(v, m); }
    forall q | q in r.arenas ensures HeaderAt(w, D, q, r.arenas[q], Count(r, q)) { assert HeaderAt(w, D, q, v.arenas[q], Count(v, q)); }
  }
}
