// How the arena allocator's state lies in memory: descriptors, intrusive free lists and arena
// headers (source/kernel/memory.h, source/kernel/memory.c:378-415). Addresses are word indices.
module HeapMemory {
  import opened Basics
  import opened LinkedList
  import opened HeapSpec

  // struct arena_desc k of the array at D: block_size, memory_blocks_sum, free_list (4 words).
  function Desc(D: nat, k: nat): nat { D + 6 * k }
  function ListAt(D: nat, k: nat): nat { D + 6 * k + 2 }
  const DESC_WORDS := 42

  // Arenas and free lists in order, occupied or not.
  ghost predicate Shape(v: HeapView)
  {
    |v.free| == CLASSES && ArenasOk(v.arenas) && forall k: nat | k < CLASSES :: ListOk(v, k)
  }

  // The descriptor array lies outside every arena.
  ghost predicate DescsApart(D: nat, arenas: map<nat, Kind>)
  {
    0 < D && forall p | p in arenas :: D + DESC_WORDS <= p || p + PAGE_WORDS * Pages(arenas[p]) <= D
  }

  ghost predicate DescsOk(w: Memory, D: nat)
  {
    forall k: nat | k < CLASSES :: Load(w, Desc(D, k)) == 4 * BlockWords(k) && Load(w, Desc(D, k) + 1) == BlockSum(k)
  }

  ghost predicate ListsOk(w: Memory, D: nat, free: seq<seq<nat>>)
    requires |free| == CLASSES
  {
    forall k: nat | k < CLASSES :: Linked(w, ListAt(D, k), free[k])
  }

  ghost function Count(v: HeapView, p: nat): nat
    requires |v.free| == CLASSES && p in v.arenas
  {
    match v.arenas[p]
    case Small(k) => if k < CLASSES then |FreeIn(v.free[k], p, k)| else 0
    case Large(n) => n
  }

  // struct arena: desc, cnt, large_request
  predicate HeaderAt(w: Memory, D: nat, p: nat, a: Kind, count: nat)
  {
    match a
    case Small(k) => Load(w, p) == Desc(D, k) && Load(w, p + 1) == count && Load(w, p + 2) == 0
    case Large(n) => Load(w, p) == 0 && Load(w, p + 1) == n && Load(w, p + 2) == 1
  }

  ghost predicate HeadersOk(w: Memory, D: nat, v: HeapView)
    requires |v.free| == CLASSES
  {
    forall p | p in v.arenas :: HeaderAt(w, D, p, v.arenas[p], Count(v, p))
  }

  ghost predicate Rep(w: Memory, D: nat, v: HeapView)
  {
    Shape(v) && DescsApart(D, v.arenas) && DescsOk(w, D) && ListsOk(w, D, v.free) && HeadersOk(w, D, v)
  }

  // ----- who owns a word

  // Words that class k's list can occupy: its sentinels, and the insides of its arenas.
  predicate Territory(arenas: map<nat, Kind>, D: nat, k: nat, a: nat)
  {
    || ListAt(D, k) <= a < ListAt(D, k) + 4
    || (ArenaOf(a) in arenas && arenas[ArenaOf(a)] == Small(k) && HEADER_WORDS <= a % PAGE_WORDS)
  }

  lemma BlockWordsInside(k: nat, b: nat, i: nat)
    requires k < CLASSES && IsBlock(k, b) && i < BlockWords(k)
    ensures ArenaOf(b + i) == ArenaOf(b) && HEADER_WORDS <= (b + i) % PAGE_WORDS
  {
    BlockBack(k, b);
  }

  lemma NodeInTerritory(v: HeapView, D: nat, k: nat, a: nat)
    requires |v.free| == CLASSES && k < CLASSES && ListOk(v, k) && Within(Nodes(ListAt(D, k), v.free[k]), a)
    ensures Territory(v.arenas, D, k, a)
  {
    var f := Nodes(ListAt(D, k), v.free[k]);
    var x := if a in f then a else a - 1;
    assert x in f;
    if x in v.free[k] {
      BlockWordsInside(k, x, 0);
      BlockWordsInside(k, x, 1);
    }
  }

  // Territories of different classes do not meet, and hold no header and no descriptor field.
  lemma TerritoriesApart(v: HeapView, D: nat, k: nat, m: nat, a: nat)
    requires DescsApart(D, v.arenas) && ArenasOk(v.arenas) && k < CLASSES && m < CLASSES && k != m && Territory(v.arenas, D, k, a)
    ensures !Territory(v.arenas, D, m, a)
  {
    if ArenaOf(a) in v.arenas && v.arenas[ArenaOf(a)].Small? { assert ArenaOf(a) <= a < ArenaOf(a) + PAGE_WORDS; }
  }

  lemma TerritoryAvoids(v: HeapView, D: nat, k: nat, a: nat)
    requires DescsApart(D, v.arenas) && ArenasOk(v.arenas) && k < CLASSES && Territory(v.arenas, D, k, a)
    ensures forall m: nat | m < CLASSES :: a != Desc(D, m) && a != Desc(D, m) + 1
    ensures forall p | p in v.arenas :: !(p <= a < p + HEADER_WORDS)
  {
    if ArenaOf(a) in v.arenas && v.arenas[ArenaOf(a)].Small? { assert ArenaOf(a) <= a < ArenaOf(a) + PAGE_WORDS; }
    forall p | p in v.arenas ensures !(p <= a < p + HEADER_WORDS) {
      assert ArenaOf(a) == p <==> p <= a < p + PAGE_WORDS;
    }
  }

  // ----- a write inside class k's territory

  ghost predicate Confined(w: Memory, w': Memory, arenas: map<nat, Kind>, D: nat, k: nat)
  {
    forall a: nat | !Territory(arenas, D, k, a) :: Load(w', a) == Load(w, a)
  }

  lemma OtherLists(w: Memory, w': Memory, D: nat, v: HeapView, k: nat, m: nat)
    requires |v.free| == CLASSES && ArenasOk(v.arenas) && DescsApart(D, v.arenas) && k < CLASSES && m < CLASSES && m != k
    requires ListOk(v, m) && Linked(w, ListAt(D, m), v.free[m]) && Confined(w, w', v.arenas, D, k)
    ensures Linked(w', ListAt(D, m), v.free[m])
  {
    forall a: nat | Within(Nodes(ListAt(D, m), v.free[m]), a) ensures Load(w', a) == Load(w, a) {
      NodeInTerritory(v, D, m, a);
      TerritoriesApart(v, D, m, k, a);
    }
    LinkedFrame(w, w', ListAt(D, m), v.free[m]);
  }

  predicate SameHeader(w: Memory, w': Memory, p: nat)
  {
    Load(w', p) == Load(w, p) && Load(w', p + 1) == Load(w, p + 1) && Load(w', p + 2) == Load(w, p + 2)
  }

  lemma FieldsKept(w: Memory, w': Memory, D: nat, v: HeapView, k: nat)
    requires ArenasOk(v.arenas) && DescsApart(D, v.arenas) && k < CLASSES && DescsOk(w, D) && Confined(w, w', v.arenas, D, k)
    ensures DescsOk(w', D)
    ensures forall p | p in v.arenas :: SameHeader(w, w', p)
  {
    forall m: nat | m < CLASSES
      ensures Load(w', Desc(D, m)) == Load(w, Desc(D, m)) && Load(w', Desc(D, m) + 1) == Load(w, Desc(D, m) + 1)
    {
      FieldNotIn(v, D, k, Desc(D, m));
      FieldNotIn(v, D, k, Desc(D, m) + 1);
    }
    forall p | p in v.arenas ensures SameHeader(w, w', p) {
      FieldNotIn(v, D, k, p);
      FieldNotIn(v, D, k, p + 1);
      FieldNotIn(v, D, k, p + 2);
    }
  }

  lemma FieldNotIn(v: HeapView, D: nat, k: nat, a: nat)
    requires ArenasOk(v.arenas) && DescsApart(D, v.arenas) && k < CLASSES
    ensures (exists m: nat :: m < CLASSES && (a == Desc(D, m) || a == Desc(D, m) + 1)) ==> !Territory(v.arenas, D, k, a)
    ensures (exists p :: p in v.arenas && p <= a < p + HEADER_WORDS) ==> !Territory(v.arenas, D, k, a)
  {
    if Territory(v.arenas, D, k, a) { TerritoryAvoids(v, D, k, a); }
  }

  // ----- live blocks

  // a is a word of a live block other than b.
  ghost predicate LiveWord(v: HeapView, b: nat, a: nat)
    requires |v.free| == CLASSES
  {
    exists c: nat :: Live(v, c) && c != b && c <= a < c + Extent(v, c)
  }

  // No list node, and so no list operation, touches a live block.
  lemma LiveIsNoNode(v: HeapView, D: nat, b: nat, k: nat, f: seq<nat>, a: nat)
    requires HeapOk(v) && DescsApart(D, v.arenas) && k < CLASSES && LiveWord(v, b, a)
    requires forall x | x in f :: x in v.free[k] || (x == b && Live(v, b) && v.arenas[ArenaOf(b)] == Small(k))
    ensures !Within(Nodes(ListAt(D, k), f), a)
  {
    var c: nat :| Live(v, c) && c != b && c <= a < c + Extent(v, c);
    LiveNoDesc(v, D, c, a);
    forall x | x in f ensures a != x && a != x + 1 {
      if x in v.free[k] {
        LiveAvoidsFree(v, c, k, x);
      } else {
        LiveDisjoint(v, c, b);
        assert Extent(v, b) == BlockWords(k);
      }
    }
    hide HeapOk, Live, Extent;
    var ns := Nodes(ListAt(D, k), f);
    forall x | x in ns ensures a != x && a != x + 1 {
      if x !in f { assert x == ListAt(D, k) || x == ListAt(D, k) + 2; }
    }
  }

  lemma LiveNoDesc(v: HeapView, D: nat, c: nat, a: nat)
    requires HeapOk(v) && DescsApart(D, v.arenas) && Live(v, c) && c <= a < c + Extent(v, c)
    ensures !(D <= a < D + DESC_WORDS)
  {
    LiveInside(v, c);
    assert ArenaOf(c) in v.arenas;
  }

  lemma LiveIsNoHeader(v: HeapView, b: nat, p: nat, a: nat)
    requires HeapOk(v) && LiveWord(v, b, a) && p in v.arenas
    ensures !(p <= a < p + HEADER_WORDS)
  {
    var c: nat :| Live(v, c) && c != b && c <= a < c + Extent(v, c);
    LiveAvoidsHeader(v, c, p);
  }

  lemma LiveIsOutside(v: HeapView, b: nat, p: nat, n: nat, a: nat)
    requires HeapOk(v) && LiveWord(v, b, a) && Unused(v, p, n)
    ensures !(p <= a < p + PAGE_WORDS * n)
  {
    var c: nat :| Live(v, c) && c != b && c <= a < c + Extent(v, c);
    LiveInside(v, c);
    assert ArenaOf(c) in v.arenas;
  }

  lemma LiveIsNoFreeBlock(v: HeapView, b: nat, k: nat, x: nat, a: nat)
    requires HeapOk(v) && LiveWord(v, b, a) && k < CLASSES && x in v.free[k]
    ensures !(x <= a < x + BlockWords(k))
  {
    var c: nat :| Live(v, c) && c != b && c <= a < c + Extent(v, c);
    LiveAvoidsFree(v, c, k, x);
  }

  // ----- where the heap writes

  // A word of the descriptors or of one of the arenas.
  ghost predicate HeapWord(v: HeapView, D: nat, a: nat)
  {
    D <= a < D + DESC_WORDS || exists p :: p in v.arenas && p <= a < p + PAGE_WORDS * Pages(v.arenas[p])
  }

  // Nothing outside the heap v changed.
  ghost predicate StaysIn(v: HeapView, D: nat, w: Memory, w': Memory)
  {
    forall a: nat | !HeapWord(v, D, a) :: Load(w', a) == Load(w, a)
  }

  lemma TerritoryIsHeap(v: HeapView, D: nat, k: nat, a: nat)
    requires k < CLASSES && Territory(v.arenas, D, k, a)
    ensures HeapWord(v, D, a)
  {
    if !(ListAt(D, k) <= a < ListAt(D, k) + 4) {
      var p := ArenaOf(a);
      assert p in v.arenas && p <= a < p + PAGE_WORDS * Pages(v.arenas[p]);
    }
  }

  // The nodes of a free list, also with one more block on it.
  lemma NodeIsHeap(v: HeapView, D: nat, k: nat, f: seq<nat>, a: nat)
    requires |v.free| == CLASSES && k < CLASSES && ListOk(v.(free := v.free[k := f]), k)
    ensures Within(Nodes(ListAt(D, k), f), a) ==> HeapWord(v, D, a)
  {
    if Within(Nodes(ListAt(D, k), f), a) {
      NodeInTerritory(v.(free := v.free[k := f]), D, k, a);
      TerritoryIsHeap(v, D, k, a);
    }
  }

  lemma InArena(v: HeapView, D: nat, p: nat, a: nat)
    requires p in v.arenas
    ensures p <= a < p + PAGE_WORDS * Pages(v.arenas[p]) ==> HeapWord(v, D, a)
  {
  }

  // ----- nodes apart

  lemma NodesApart(v: HeapView, D: nat, k: nat, b: nat)
    requires Shape(v) && DescsApart(D, v.arenas) && k < CLASSES && IsBlock(k, b) && b !in v.free[k]
    requires ArenaOf(b) in v.arenas && v.arenas[ArenaOf(b)] == Small(k)
    ensures 0 < b && forall x | x in Nodes(ListAt(D, k), v.free[k]) :: Apart(b, x)
  {
    BlockBack(k, b);
    assert ListOk(v, k);
    forall x | x in Nodes(ListAt(D, k), v.free[k]) ensures Apart(b, x) {
      if x in v.free[k] { FreeBlocksApart(v.arenas, k, b, x); }
    }
  }

  lemma FreeBlocksApart(arenas: map<nat, Kind>, k: nat, b: nat, x: nat)
    requires ArenasOk(arenas) && k < CLASSES && IsBlock(k, b) && IsBlock(k, x) && b != x
    requires ArenaOf(b) in arenas && ArenaOf(x) in arenas
    requires arenas[ArenaOf(b)] == Small(k) == arenas[ArenaOf(x)]
    ensures b + BlockWords(k) <= x || x + BlockWords(k) <= b
    ensures Apart(b, x)
  {
    BlockBack(k, b);
    BlockBack(k, x);
    if ArenaOf(b) == ArenaOf(x) { if b < x { BlocksApart(k, b, x); } else { BlocksApart(k, x, b); } }
  }

  // ----- the list steps on the whole representation

  // Everything but the free list of class k and the counts of its arenas.
  ghost predicate RepBut(w: Memory, D: nat, v: HeapView, k: nat)
  {
    && |v.free| == CLASSES && ArenasOk(v.arenas) && DescsApart(D, v.arenas) && DescsOk(w, D)
    && (forall m: nat | m < CLASSES && m != k :: Linked(w, ListAt(D, m), v.free[m]) && ListOk(v, m))
    && (forall p | p in v.arenas :: HeaderBut(w, D, v, p, k))
  }

  ghost predicate HeaderBut(w: Memory, D: nat, v: HeapView, p: nat, k: nat)
    requires |v.free| == CLASSES && p in v.arenas
  {
    if v.arenas[p] == Small(k) then Load(w, p) == Desc(D, k) && Load(w, p + 2) == 0
    else HeaderAt(w, D, p, v.arenas[p], Count(v, p))
  }

  lemma RepSplits(w: Memory, D: nat, v: HeapView, k: nat)
    requires k < CLASSES && Rep(w, D, v)
    ensures RepBut(w, D, v, k) && ListOk(v, k) && Linked(w, ListAt(D, k), v.free[k]) && Shape(v)
    ensures forall p | p in v.arenas && v.arenas[p] == Small(k) :: Load(w, p + 1) == Count(v, p)
  {
    forall p | p in v.arenas ensures HeaderBut(w, D, v, p, k) { assert HeaderAt(w, D, p, v.arenas[p], Count(v, p)); }
  }

  lemma RepJoins(w: Memory, D: nat, v: HeapView, k: nat)
    requires k < CLASSES && RepBut(w, D, v, k) && ListOk(v, k) && Linked(w, ListAt(D, k), v.free[k])
    requires forall p | p in v.arenas && v.arenas[p] == Small(k) :: Load(w, p + 1) == Count(v, p)
    ensures Rep(w, D, v)
  {
    forall p | p in v.arenas ensures HeaderAt(w, D, p, v.arenas[p], Count(v, p)) { assert HeaderBut(w, D, v, p, k); }
    forall m: nat | m < CLASSES ensures Linked(w, ListAt(D, m), v.free[m]) && ListOk(v, m) { }
  }

  // Work confined to class k's territory keeps the rest.
  lemma RepButKept(w: Memory, w': Memory, D: nat, v: HeapView, free': seq<nat>, k: nat)
    requires RepBut(w, D, v, k) && k < CLASSES && Confined(w, w', v.arenas, D, k) && ListOk(v, k)
    ensures RepBut(w', D, v.(free := v.free[k := free']), k)
  {
    var v' := v.(free := v.free[k := free']);
    FieldsKept(w, w', D, v, k);
    forall m: nat | m < CLASSES && m != k ensures Linked(w', ListAt(D, m), v'.free[m]) && ListOk(v', m) {
      OtherLists(w, w', D, v, k, m);
    }
    forall p | p in v'.arenas ensures HeaderBut(w', D, v', p, k) {
      assert SameHeader(w, w', p) && HeaderBut(w, D, v, p, k);
      HeaderButSame(w, w', D, v, v', p, k);
    }
  }

  lemma HeaderButSame(w: Memory, w': Memory, D: nat, v: HeapView, v': HeapView, p: nat, k: nat)
    requires |v.free| == CLASSES && |v'.free| == CLASSES && p in v.arenas && v'.arenas == v.arenas && k < CLASSES
    requires SameHeader(w, w', p) && HeaderBut(w, D, v, p, k)
    requires forall m: nat | m < CLASSES && m != k :: v'.free[m] == v.free[m]
    ensures HeaderBut(w', D, v', p, k)
  {
  }
}
