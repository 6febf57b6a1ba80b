// What the arena allocator keeps and does (source/kernel/memory.c:378-564), on the level of
// arenas, free lists and blocks. Addresses are word indices: a page is 1024 words, struct arena 3.
module HeapSpec {
  import opened Basics

  const PAGE_WORDS := 1024
  const HEADER_WORDS := 3
  const CLASSES := 7

  // memory.c:378-388: block sizes 16, 32, ... 1024 bytes, and how many fit beside the header.
  function BlockWords(k: nat): nat
    requires k < CLASSES
  {
    if k == 0 then 4 else if k == 1 then 8 else if k == 2 then 16 else if k == 3 then 32
    else if k == 4 then 64 else if k == 5 then 128 else 256
  }

  function BlockSum(k: nat): nat
    requires k < CLASSES
  {
    if k == 0 then 255 else if k == 1 then 127 else if k == 2 then 63 else if k == 3 then 31
    else if k == 4 then 15 else if k == 5 then 7 else 3
  }

  // An arena holds as many blocks as fit on a page of 4096 bytes behind the 12 of its header.
  lemma AsManyAsFit(k: nat)
    requires k < CLASSES
    ensures BlockSum(k) == (4096 - 12) / (4 * BlockWords(k))
    ensures 4 * (HEADER_WORDS + BlockWords(k) * BlockSum(k)) <= 4096 < 4 * (HEADER_WORDS + BlockWords(k) * (BlockSum(k) + 1))
  {
  }

  function Offset(k: nat, i: nat): nat
    requires k < CLASSES
  {
    if k == 0 then 4 * i else if k == 1 then 8 * i else if k == 2 then 16 * i else if k == 3 then 32 * i
    else if k == 4 then 64 * i else if k == 5 then 128 * i else 256 * i
  }

  function IndexAt(k: nat, o: nat): nat
    requires k < CLASSES
  {
    if k == 0 then o / 4 else if k == 1 then o / 8 else if k == 2 then o / 16 else if k == 3 then o / 32
    else if k == 4 then o / 64 else if k == 5 then o / 128 else o / 256
  }

  // memory.c:407-410
  function Block(p: nat, k: nat, i: nat): nat
    requires k < CLASSES
  {
    p + HEADER_WORDS + Offset(k, i)
  }

  // memory.c:412-415
  function ArenaOf(b: nat): nat
  {
    b - b % PAGE_WORDS
  }

  function IndexOf(k: nat, b: nat): nat
    requires k < CLASSES && HEADER_WORDS <= b % PAGE_WORDS
  {
    IndexAt(k, b % PAGE_WORDS - HEADER_WORDS)
  }

  // b is the address of a class-k block on its page.
  predicate IsBlock(k: nat, b: nat)
    requires k < CLASSES
  {
    && HEADER_WORDS <= b % PAGE_WORDS
    && IndexOf(k, b) < BlockSum(k)
    && Offset(k, IndexOf(k, b)) == b % PAGE_WORDS - HEADER_WORDS
  }

  lemma OffsetBounds(k: nat, i: nat)
    requires k < CLASSES && i < BlockSum(k)
    ensures HEADER_WORDS + Offset(k, i) + BlockWords(k) <= PAGE_WORDS && IndexAt(k, Offset(k, i)) == i
  {
  }

  lemma OffsetOrder(k: nat, i: nat, j: nat)
    requires k < CLASSES && i < j
    ensures Offset(k, i) + BlockWords(k) <= Offset(k, j)
  {
  }

  lemma BlockPlace(p: nat, k: nat, i: nat)
    requires k < CLASSES && i < BlockSum(k) && p % PAGE_WORDS == 0
    ensures var b := Block(p, k, i);
            && IsBlock(k, b) && ArenaOf(b) == p && IndexOf(k, b) == i
            && p + HEADER_WORDS <= b && b + BlockWords(k) <= p + PAGE_WORDS
  {
    OffsetBounds(k, i);
    hide Offset, IndexAt, BlockSum;
    assert 0 < BlockWords(k);
    hide BlockWords;
    assert Block(p, k, i) % PAGE_WORDS == HEADER_WORDS + Offset(k, i);
  }

  lemma BlockBack(k: nat, b: nat)
    requires k < CLASSES && IsBlock(k, b)
    ensures b == Block(ArenaOf(b), k, IndexOf(k, b)) && ArenaOf(b) % PAGE_WORDS == 0
    ensures ArenaOf(b) + HEADER_WORDS <= b && b + BlockWords(k) <= ArenaOf(b) + PAGE_WORDS
  {
  }

  lemma BlocksApart(k: nat, b: nat, c: nat)
    requires k < CLASSES && IsBlock(k, b) && IsBlock(k, c) && ArenaOf(b) == ArenaOf(c) && b < c
    ensures b + BlockWords(k) <= c
  {
    hide Offset, IndexAt, BlockWords, BlockSum;
    var i, j := IndexOf(k, b), IndexOf(k, c);
    if i < j { OffsetOrder(k, i, j); } else if j < i { OffsetOrder(k, j, i); }
  }

  // ----- the state

  datatype Kind = Small(k: nat) | Large(pages: nat)

  // arenas: page address to what the page's arena is; free: one free list per class.
  datatype HeapView = HeapView(arenas: map<nat, Kind>, free: seq<seq<nat>>)

  const EMPTY := HeapView(map[], [[], [], [], [], [], [], []])

  function Pages(a: Kind): nat
  {
    match a case Small(_) => 1 case Large(n) => n
  }

  // Indices of the blocks of arena p that a free list holds.
  ghost function FreeIn(f: seq<nat>, p: nat, k: nat): set<nat>
    requires k < CLASSES
  {
    set i: nat | i < BlockSum(k) && Block(p, k, i) in f
  }

  // Arenas are pages or runs of pages that do not overlap.
  ghost predicate ArenasOk(arenas: map<nat, Kind>)
  {
    && (forall p | p in arenas :: 0 < p && p % PAGE_WORDS == 0 &&
          match arenas[p] case Small(k) => k < CLASSES case Large(n) => 1 <= n)
    && (forall p, q | p in arenas && q in arenas && p < q :: p + PAGE_WORDS * Pages(arenas[p]) <= q)
  }

  // Each free list holds blocks of its class's arenas, once each.
  ghost predicate ListOk(v: HeapView, k: nat)
    requires k < CLASSES && |v.free| == CLASSES
  {
    && Distinct(v.free[k])
    && forall b | b in v.free[k] :: IsBlock(k, b) && ArenaOf(b) in v.arenas && v.arenas[ArenaOf(b)] == Small(k)
  }

  // No small arena is entirely free.
  ghost predicate Occupied(v: HeapView, p: nat)
    requires p in v.arenas && |v.free| == CLASSES
  {
    v.arenas[p].Small? && v.arenas[p].k < CLASSES ==>
      |FreeIn(v.free[v.arenas[p].k], p, v.arenas[p].k)| < BlockSum(v.arenas[p].k)
  }

  ghost predicate HeapOk(v: HeapView)
  {
    && |v.free| == CLASSES && ArenasOk(v.arenas)
    && (forall k: nat | k < CLASSES :: ListOk(v, k))
    && (forall p | p in v.arenas :: Occupied(v, p))
  }

  // The addresses handed out and not yet freed.
  predicate Live(v: HeapView, b: nat)
    requires |v.free| == CLASSES
  {
    var p := ArenaOf(b);
    p in v.arenas &&
    match v.arenas[p]
    case Small(k) => k < CLASSES && IsBlock(k, b) && b !in v.free[k]
    case Large(_) => b == p + HEADER_WORDS
  }

  // Words usable from b on.
  function Extent(v: HeapView, b: nat): nat
    requires |v.free| == CLASSES && Live(v, b)
  {
    match v.arenas[ArenaOf(b)]
    case Small(k) => BlockWords(k)
    case Large(n) => if n == 0 then 0 else PAGE_WORDS * n - HEADER_WORDS
  }

  // ----- what the invariant means for callers

  lemma LiveInside(v: HeapView, b: nat)
    requires HeapOk(v) && Live(v, b)
    ensures var p := ArenaOf(b);
            && p + HEADER_WORDS <= b && b + Extent(v, b) <= p + PAGE_WORDS * Pages(v.arenas[p]) && 0 < Extent(v, b)
  {
    match v.arenas[ArenaOf(b)] {
      case Small(k) => BlockBack(k, b);
      case Large(n) =>
    }
  }

  // Live blocks are pairwise disjoint.
  lemma LiveDisjoint(v: HeapView, b: nat, c: nat)
    requires HeapOk(v) && Live(v, b) && Live(v, c) && b != c
    ensures b + Extent(v, b) <= c || c + Extent(v, c) <= b
  {
    LiveInside(v, b);
    LiveInside(v, c);
    var p, q := ArenaOf(b), ArenaOf(c);
    if p == q {
      var k := v.arenas[p].k;
      if b < c { BlocksApart(k, b, c); } else { BlocksApart(k, c, b); }
    }
  }

  // They overlap no arena header ...
  lemma LiveAvoidsHeader(v: HeapView, b: nat, q: nat)
    requires HeapOk(v) && Live(v, b) && q in v.arenas
    ensures b + Extent(v, b) <= q || q + HEADER_WORDS <= b
  {
    LiveInside(v, b);
  }

  // ... and no free block.
  lemma LiveAvoidsFree(v: HeapView, b: nat, k: nat, f: nat)
    requires HeapOk(v) && Live(v, b) && k < CLASSES && f in v.free[k]
    ensures b + Extent(v, b) <= f || f + BlockWords(k) <= b
  {
    assert ListOk(v, k);
    LiveInside(v, b);
    BlockBack(k, f);
    if ArenaOf(f) == ArenaOf(b) {
      if b < f { BlocksApart(k, b, f); } else { BlocksApart(k, f, b); }
    }
  }

  // ----- counting free blocks

  function Upto(n: nat): (r: set<nat>)
    ensures forall i: nat :: i in r <==> i < n
    ensures |r| == n
  {
    if n == 0 then {} else Upto(n - 1) + {n - 1}
  }

  lemma {:induction false} SubsetSize(a: set<nat>, b: set<nat>)
    requires a <= b
    ensures |a| <= |b| && (|a| == |b| ==> a == b)
  {
    if a != {} {
      var x :| x in a;
      SubsetSize(a - {x}, b - {x});
    }
  }

  // The count reaches memory_blocks_sum exactly when every block is on the list.
  lemma FullIff(f: seq<nat>, p: nat, k: nat)
    requires k < CLASSES
    ensures |FreeIn(f, p, k)| <= BlockSum(k)
    ensures |FreeIn(f, p, k)| == BlockSum(k) <==> forall i: nat | i < BlockSum(k) :: Block(p, k, i) in f
  {
    var all := Upto(BlockSum(k));
    SubsetSize(FreeIn(f, p, k), all);
    if forall i: nat | i < BlockSum(k) :: Block(p, k, i) in f {
      assert FreeIn(f, p, k) == all;
    } else {
      var i: nat :| i < BlockSum(k) && Block(p, k, i) !in f;
      assert i in all && i !in FreeIn(f, p, k);
    }
  }

  // b is one block of its arena, and none of another's.
  lemma OneBlock(b: nat, k: nat, p: nat)
    requires k < CLASSES && IsBlock(k, b) && p % PAGE_WORDS == 0
    ensures HEADER_WORDS <= b % PAGE_WORDS && IndexOf(k, b) < BlockSum(k)
    ensures forall i: nat | i < BlockSum(k) :: Block(p, k, i) == b <==> p == ArenaOf(b) && i == IndexOf(k, b)
  {
    BlockBack(k, b);
    forall i: nat | i < BlockSum(k) ensures Block(p, k, i) == b <==> p == ArenaOf(b) && i == IndexOf(k, b) {
      BlockPlace(p, k, i);
      hide Offset, IndexAt;
    }
  }

  // Adding a block raises its arena's count by one and no other's.
  lemma CountAdded(f: seq<nat>, b: nat, k: nat, p: nat)
    requires k < CLASSES && IsBlock(k, b) && b !in f && p % PAGE_WORDS == 0
    ensures |FreeIn(f + [b], p, k)| == |FreeIn(f, p, k)| + if p == ArenaOf(b) then 1 else 0
  {
    hide Block, BlockSum, IndexOf, ArenaOf, IsBlock;
    OneBlock(b, k, p);
    if p == ArenaOf(b) {
      assert FreeIn(f + [b], p, k) == FreeIn(f, p, k) + {IndexOf(k, b)};
    } else {
      assert FreeIn(f + [b], p, k) == FreeIn(f, p, k);
    }
  }

  // Taking the head lowers its arena's count by one and no other's.
  lemma CountTaken(f: seq<nat>, k: nat, p: nat)
    requires k < CLASSES && f != [] && Distinct(f) && IsBlock(k, f[0]) && p % PAGE_WORDS == 0
    ensures |FreeIn(f, p, k)| == |FreeIn(f[1..], p, k)| + if p == ArenaOf(f[0]) then 1 else 0
  {
    hide Block, BlockSum, IndexOf, ArenaOf, IsBlock, Distinct;
    var b := f[0];
    TailMembers(f);
    OneBlock(b, k, p);
    if p == ArenaOf(b) {
      assert FreeIn(f, p, k) == FreeIn(f[1..], p, k) + {IndexOf(k, b)};
    } else {
      assert FreeIn(f, p, k) == FreeIn(f[1..], p, k);
    }
  }

  lemma TailMembers(f: seq<nat>)
    requires f != [] && Distinct(f)
    ensures Distinct(f[1..]) && forall x :: x in f[1..] <==> x in f && x != f[0]
  {
    assert f == [f[0]] + f[1..];
  }

  // ----- the operations

  // The blocks of a fresh arena, in the order sys_malloc appends them.
  function Fresh(p: nat, k: nat, n: nat): (s: seq<nat>)
    requires k < CLASSES
    ensures |s| == n && forall i: nat | i < n :: s[i] == Block(p, k, i)
  {
    if n == 0 then [] else Fresh(p, k, n - 1) + [Block(p, k, n - 1)]
  }

  // memory.c:482-506
  function Grow(v: HeapView, p: nat, k: nat): HeapView
    requires k < CLASSES && |v.free| == CLASSES
  {
    HeapView(v.arenas[p := Small(k)], v.free[k := v.free[k] + Fresh(p, k, BlockSum(k))])
  }

  // memory.c:508-512
  function Take(v: HeapView, k: nat): HeapView
    requires k < CLASSES && |v.free| == CLASSES && v.free[k] != []
  {
    v.(free := v.free[k := v.free[k][1..]])
  }

  // memory.c:481-514; p is the page palloc supplies when the class has no free block.
  function MallocSmall(v: HeapView, k: nat, p: nat): HeapView
    requires k < CLASSES && |v.free| == CLASSES
  {
    if v.free[k] == [] then Take(Grow(v, p, k), k) else Take(v, k)
  }

  function MallocSmallAddress(v: HeapView, k: nat, p: nat): nat
    requires k < CLASSES && |v.free| == CLASSES
  {
    if v.free[k] == [] then Block(p, k, 0) else v.free[k][0]
  }

  // memory.c:452-462
  function MallocLarge(v: HeapView, p: nat, n: nat): HeapView
  {
    v.(arenas := v.arenas[p := Large(n)])
  }

  // A list without the blocks of arena p (memory.c:553-558), order kept.
  function Without(f: seq<nat>, p: nat): (r: seq<nat>)
    ensures forall x :: x in r <==> x in f && ArenaOf(x) != p
  {
    if f == [] then []
    else if ArenaOf(f[|f| - 1]) == p then Without(f[..|f| - 1], p)
    else Without(f[..|f| - 1], p) + [f[|f| - 1]]
  }

  // memory.c:540-561
  ghost function Free(v: HeapView, b: nat): HeapView
    requires |v.free| == CLASSES && Live(v, b)
  {
    var p := ArenaOf(b);
    match v.arenas[p]
    case Large(_) => v.(arenas := v.arenas - {p})
    case Small(k) =>
      var f := v.free[k] + [b];
      if |FreeIn(f, p, k)| == BlockSum(k) then Released(v, b, k)
      else v.(free := v.free[k := f])
  }

  // A run of n pages from p that no arena uses.
  ghost predicate Unused(v: HeapView, p: nat, n: nat)
  {
    && 0 < p && p % PAGE_WORDS == 0
    && forall q | q in v.arenas :: q + PAGE_WORDS * Pages(v.arenas[q]) <= p || p + PAGE_WORDS * n <= q
  }

  // ----- the operations keep the invariant and change the live set by exactly one block

  // The blocks of a fresh arena but the first.
  lemma FreshTail(p: nat, k: nat)
    requires k < CLASSES && p % PAGE_WORDS == 0
    ensures var t := Fresh(p, k, BlockSum(k))[1..];
            && Distinct(t)
            && forall c :: c in t <==> IsBlock(k, c) && ArenaOf(c) == p && c != Block(p, k, 0)
  {
    var t := Fresh(p, k, BlockSum(k))[1..];
    forall i: nat | i < |t| ensures IsBlock(k, t[i]) && ArenaOf(t[i]) == p && IndexOf(k, t[i]) == i + 1 {
      BlockPlace(p, k, i + 1);
    }
    BlockPlace(p, k, 0);
    forall c | IsBlock(k, c) && ArenaOf(c) == p && c != Block(p, k, 0) ensures c in t {
      BlockBack(k, c);
      assert t[IndexOf(k, c) - 1] == c;
    }
  }

  lemma GrowTakeOk(v: HeapView, k: nat, p: nat)
    requires HeapOk(v) && k < CLASSES && v.free[k] == [] && Unused(v, p, 1)
    ensures HeapOk(MallocSmall(v, k, p))
  {
    var v' := MallocSmall(v, k, p);
    var all := Fresh(p, k, BlockSum(k));
    assert [] + all == all && v'.free[k] == all[1..];
    FreshTail(p, k);
    UnusedIsNew(v, p, 1);
    forall m: nat | m < CLASSES ensures ListOk(v', m) { assert ListOk(v, m); }
    forall q | q in v'.arenas ensures Occupied(v', q) {
      if q != p { assert Occupied(v, q); }
      if v'.arenas[q] == Small(k) { FreshOccupied(p, k, q); }
    }
  }

  // Of the blocks of a fresh arena but the first, no arena has all.
  lemma FreshOccupied(p: nat, k: nat, q: nat)
    requires k < CLASSES && p % PAGE_WORDS == 0 && q % PAGE_WORDS == 0
    ensures |FreeIn(Fresh(p, k, BlockSum(k))[1..], q, k)| < BlockSum(k)
  {
    var t := Fresh(p, k, BlockSum(k))[1..];
    FreshTail(p, k);
    BlockPlace(q, k, 0);
    assert Block(q, k, 0) !in t;
    FullIff(t, q, k);
  }

  lemma TakeOk(v: HeapView, k: nat)
    requires HeapOk(v) && k < CLASSES && v.free[k] != []
    ensures HeapOk(Take(v, k))
  {
    var v' := Take(v, k);
    var f := v.free[k];
    assert ListOk(v, k);
    assert f[0] in f;
    TailMembers(f);
    forall m: nat | m < CLASSES ensures ListOk(v', m) { assert ListOk(v, m); }
    forall q | q in v'.arenas ensures Occupied(v', q) {
      assert Occupied(v, q);
      if v.arenas[q] == Small(k) { CountTaken(f, k, q); }
    }
  }

  // v' has the live blocks of v and b besides, and their sizes.
  ghost predicate OneMore(v: HeapView, v': HeapView, b: nat)
  {
    && |v.free| == |v'.free| == CLASSES
    && !Live(v, b) && Live(v', b)
    && (forall c :: Live(v', c) <==> c == b || Live(v, c))
    && (forall c | Live(v, c) :: Extent(v', c) == Extent(v, c))
  }

  // A small allocation keeps the heap, and makes exactly one new block live.
  lemma MallocSmallOk(v: HeapView, k: nat, p: nat)
    requires HeapOk(v) && k < CLASSES && (v.free[k] == [] ==> Unused(v, p, 1))
    ensures var v' := MallocSmall(v, k, p);
            var b := MallocSmallAddress(v, k, p);
            HeapOk(v') && OneMore(v, v', b) && Extent(v', b) == BlockWords(k)
  {
    if v.free[k] == [] {
      GrowTakeOk(v, k, p);
      UnusedIsNew(v, p, 1);
      FreshLive(v, k, p);
    } else {
      TakeOk(v, k);
      TakeLive(v, k);
    }
  }

  lemma TakeLive(v: HeapView, k: nat)
    requires HeapOk(v) && k < CLASSES && v.free[k] != []
    ensures OneMore(v, Take(v, k), v.free[k][0]) && Extent(Take(v, k), v.free[k][0]) == BlockWords(k)
  {
    assert ListOk(v, k) && v.free[k][0] in v.free[k];
    TailMembers(v.free[k]);
  }

  lemma FreshLive(v: HeapView, k: nat, p: nat)
    requires |v.free| == CLASSES && k < CLASSES && v.free[k] == [] && p !in v.arenas && p % PAGE_WORDS == 0
    ensures var v' := MallocSmall(v, k, p);
            OneMore(v, v', Block(p, k, 0)) && Extent(v', Block(p, k, 0)) == BlockWords(k)
  {
    hide IsBlock, Fresh, Block, BlockWords, ArenaOf;
    var v' := MallocSmall(v, k, p);
    var all := Fresh(p, k, BlockSum(k));
    assert [] + all == all && v'.free[k] == all[1..];
    BlockPlace(p, k, 0);
    FreshTail(p, k);
  }

  lemma UnusedIsNew(v: HeapView, p: nat, n: nat)
    requires ArenasOk(v.arenas) && Unused(v, p, n) && 1 <= n
    ensures p !in v.arenas && ArenasOk(v.arenas[p := Large(n)])
    ensures n == 1 ==> forall k: nat | k < CLASSES :: ArenasOk(v.arenas[p := Small(k)])
  {
    assert forall q | q in v.arenas :: 1 <= Pages(v.arenas[q]);
  }

  lemma LargeLive(v: HeapView, p: nat, n: nat)
    requires |v.free| == CLASSES && p !in v.arenas && p % PAGE_WORDS == 0 && 1 <= n
    ensures OneMore(v, MallocLarge(v, p, n), p + HEADER_WORDS)
    ensures Extent(MallocLarge(v, p, n), p + HEADER_WORDS) == PAGE_WORDS * n - HEADER_WORDS
  {
    assert ArenaOf(p + HEADER_WORDS) == p;
  }

  // A large allocation likewise.
  lemma MallocLargeOk(v: HeapView, p: nat, n: nat)
    requires HeapOk(v) && 1 <= n && Unused(v, p, n)
    ensures var v' := MallocLarge(v, p, n);
            var b := p + HEADER_WORDS;
            HeapOk(v') && OneMore(v, v', b) && Extent(v', b) == PAGE_WORDS * n - HEADER_WORDS
  {
    UnusedIsNew(v, p, n);
    LargeLive(v, p, n);
    var v' := MallocLarge(v, p, n);
    forall m: nat | m < CLASSES ensures ListOk(v', m) { assert ListOk(v, m); }
    forall q | q in v'.arenas ensures Occupied(v', q) { if q != p { assert Occupied(v, q); } }
  }

  // Freeing keeps the heap, and makes exactly that block dead.
  lemma FreeOk(v: HeapView, b: nat)
    requires HeapOk(v) && Live(v, b)
    ensures var v' := Free(v, b);
            && HeapOk(v') && (forall c :: Live(v', c) <==> c != b && Live(v, c))
            && (forall c | Live(v', c) :: Extent(v', c) == Extent(v, c))
  {
    var v', p := Free(v, b), ArenaOf(b);
    match v.arenas[p] {
      case Large(_) =>
        forall m: nat | m < CLASSES ensures ListOk(v', m) { assert ListOk(v, m); }
        forall q | q in v'.arenas ensures Occupied(v', q) { assert Occupied(v, q); }
      case Small(k) =>
        var f := v.free[k] + [b];
        FullIff(f, p, k);
        if |FreeIn(f, p, k)| == BlockSum(k) { ReleaseOk(v, b, k); } else { AppendOk(v, b, k); }
    }
  }

  lemma AppendOk(v: HeapView, b: nat, k: nat)
    requires HeapOk(v) && Live(v, b) && v.arenas[ArenaOf(b)] == Small(k)
    requires |FreeIn(v.free[k] + [b], ArenaOf(b), k)| < BlockSum(k)
    ensures var v' := v.(free := v.free[k := v.free[k] + [b]]);
            && HeapOk(v') && (forall c :: Live(v', c) <==> c != b && Live(v, c))
  {
    var v' := v.(free := v.free[k := v.free[k] + [b]]);
    forall m: nat | m < CLASSES ensures ListOk(v', m) { assert ListOk(v, m); }
    forall q | q in v'.arenas ensures Occupied(v', q) {
      assert Occupied(v, q);
      if v.arenas[q] == Small(k) { CountAdded(v.free[k], b, k, q); }
    }
  }

  lemma {:induction false} WithoutDistinct(f: seq<nat>, p: nat)
    requires Distinct(f)
    ensures Distinct(Without(f, p))
  {
    if f != [] { WithoutDistinct(f[..|f| - 1], p); }
  }

  function Released(v: HeapView, b: nat, k: nat): HeapView
    requires |v.free| == CLASSES && k < CLASSES
  {
    HeapView(v.arenas - {ArenaOf(b)}, v.free[k := Without(v.free[k] + [b], ArenaOf(b))])
  }

  lemma ReleaseOk(v: HeapView, b: nat, k: nat)
    requires HeapOk(v) && Live(v, b) && v.arenas[ArenaOf(b)] == Small(k)
    requires |FreeIn(v.free[k] + [b], ArenaOf(b), k)| == BlockSum(k)
    ensures HeapOk(Released(v, b, k)) && (forall c :: Live(Released(v, b, k), c) <==> c != b && Live(v, c))
  {
    var p, f := ArenaOf(b), v.free[k] + [b];
    var v' := Released(v, b, k);
    assert ListOk(v, k);
    WithoutDistinct(f, p);
    forall m: nat | m < CLASSES ensures ListOk(v', m) { assert ListOk(v, m); }
    forall q | q in v'.arenas ensures Occupied(v', q) {
      assert Occupied(v, q);
      if v.arenas[q] == Small(k) { WithoutCount(v.free[k], b, k, q); }
    }
    FullIff(f, p, k);
    ReleaseLive(v, b, k);
  }

  lemma WithoutCount(f: seq<nat>, b: nat, k: nat, q: nat)
    requires k < CLASSES && q % PAGE_WORDS == 0 && q != ArenaOf(b)
    ensures FreeIn(Without(f + [b], ArenaOf(b)), q, k) == FreeIn(f, q, k)
  {
    forall i: nat | i < BlockSum(k)
      ensures Block(q, k, i) in Without(f + [b], ArenaOf(b)) <==> Block(q, k, i) in f
    {
      BlockPlace(q, k, i);
    }
  }

  lemma ReleaseLive(v: HeapView, b: nat, k: nat)
    requires |v.free| == CLASSES && Live(v, b) && v.arenas[ArenaOf(b)] == Small(k)
    requires forall i: nat | i < BlockSum(k) :: Block(ArenaOf(b), k, i) in v.free[k] + [b]
    ensures forall c :: Live(Released(v, b, k), c) <==> c != b && Live(v, c)
  {
    forall c | ArenaOf(c) == ArenaOf(b) && IsBlock(k, c) ensures c in v.free[k] + [b] {
      BlockBack(k, c);
      assert Block(ArenaOf(b), k, IndexOf(k, c)) in v.free[k] + [b];
    }
  }

  // A page goes back exactly when its last live block is freed.
  lemma ReleasedIff(v: HeapView, b: nat)
    requires HeapOk(v) && Live(v, b)
    ensures ArenaOf(b) !in Free(v, b).arenas <==> forall c | Live(v, c) && ArenaOf(c) == ArenaOf(b) :: c == b
  {
    var p := ArenaOf(b);
    match v.arenas[p] {
      case Large(_) =>
      case Small(k) =>
        var f := v.free[k] + [b];
        FullIff(f, p, k);
        if |FreeIn(f, p, k)| == BlockSum(k) {
          FreeOk(v, b);
          forall c | Live(v, c) && ArenaOf(c) == p ensures c == b { BlockBack(k, c); assert Block(p, k, IndexOf(k, c)) in f; }
        } else {
          var i: nat :| i < BlockSum(k) && Block(p, k, i) !in f;
          BlockPlace(p, k, i);
          assert Live(v, Block(p, k, i));
        }
    }
  }

  // ----- free undoes malloc

  // The same up to the order within free lists.
  ghost predicate Same(v: HeapView, u: HeapView)
  {
    && |v.free| == |u.free| == CLASSES && v.arenas == u.arenas
    && forall k: nat | k < CLASSES :: forall b :: b in v.free[k] <==> b in u.free[k]
  }

  lemma FreeUndoesMallocSmall(v: HeapView, k: nat, p: nat)
    requires HeapOk(v) && k < CLASSES && (v.free[k] == [] ==> Unused(v, p, 1))
    ensures var v', b := MallocSmall(v, k, p), MallocSmallAddress(v, k, p);
            HeapOk(v') && Live(v', b) && Same(Free(v', b), v)
  {
    MallocSmallOk(v, k, p);
    if v.free[k] == [] { UnusedIsNew(v, p, 1); UndoesFresh(v, k, p); } else { UndoesTake(v, k); }
  }

  lemma NoMembers(f: seq<nat>)
    ensures (forall x :: x !in f) <==> f == []
  {
    if f != [] { assert f[0] in f; }
  }

  // The new page is given back.
  lemma UndoesFresh(v: HeapView, k: nat, p: nat)
    requires |v.free| == CLASSES && k < CLASSES && v.free[k] == [] && p !in v.arenas && p % PAGE_WORDS == 0
    requires Live(MallocSmall(v, k, p), Block(p, k, 0))
    ensures Free(MallocSmall(v, k, p), Block(p, k, 0)) == v
  {
    var v', b := MallocSmall(v, k, p), Block(p, k, 0);
    assert [] + Fresh(p, k, BlockSum(k)) == Fresh(p, k, BlockSum(k));
    BlockPlace(p, k, 0);
    AllFree(p, k);
    assert Released(v', b, k).arenas == v.arenas;
    assert Released(v', b, k).free == v.free;
  }

  lemma AllFree(p: nat, k: nat)
    requires k < CLASSES && p % PAGE_WORDS == 0
    ensures var f := Fresh(p, k, BlockSum(k))[1..] + [Block(p, k, 0)];
            |FreeIn(f, p, k)| == BlockSum(k) && Without(f, p) == []
  {
    var f := Fresh(p, k, BlockSum(k))[1..] + [Block(p, k, 0)];
    FreshTail(p, k);
    BlockPlace(p, k, 0);
    forall i: nat | i < BlockSum(k) ensures Block(p, k, i) in f { BlockPlace(p, k, i); }
    FullIff(f, p, k);
    NoMembers(Without(f, p));
  }

  // The block goes back to the end of its list, and its arena is still occupied.
  lemma UndoesTake(v: HeapView, k: nat)
    requires HeapOk(v) && k < CLASSES && v.free[k] != [] && Live(Take(v, k), v.free[k][0])
    ensures Same(Free(Take(v, k), v.free[k][0]), v)
  {
    var v', b := Take(v, k), v.free[k][0];
    var f := v'.free[k] + [b];
    assert v.free[k] == [b] + v'.free[k];
    assert ListOk(v, k) && b in v.free[k];
    assert Occupied(v, ArenaOf(b));
    assert FreeIn(f, ArenaOf(b), k) == FreeIn(v.free[k], ArenaOf(b), k);
  }

  lemma FreeUndoesMallocLarge(v: HeapView, p: nat, n: nat)
    requires HeapOk(v) && 1 <= n && Unused(v, p, n)
    ensures var v' := MallocLarge(v, p, n);
            HeapOk(v') && Live(v', p + HEADER_WORDS) && Free(v', p + HEADER_WORDS) == v
  {
    MallocLargeOk(v, p, n);
    assert ArenaOf(p + HEADER_WORDS) == p;
    assert forall q | q in v.arenas :: 1 <= Pages(v.arenas[q]);
    assert MallocLarge(v, p, n).arenas - {p} == v.arenas;
  }

  // ----- draining

  lemma LargeAddress(p: nat)
    requires p % PAGE_WORDS == 0
    ensures ArenaOf(p + HEADER_WORDS) == p
  {
  }

  // Every arena has a live block: nothing is kept for nobody.
  lemma ArenaHasLive(v: HeapView, p: nat) returns (b: nat)
    requires HeapOk(v) && p in v.arenas
    ensures Live(v, b) && ArenaOf(b) == p
  {
    hide ListOk, Block, IsBlock, FreeIn, BlockSum;
    match v.arenas[p] {
      case Large(_) =>
        b := p + HEADER_WORDS;
        LargeAddress(p);
      case Small(k) =>
        assert Occupied(v, p);
        FullIff(v.free[k], p, k);
        var i: nat :| i < BlockSum(k) && Block(p, k, i) !in v.free[k];
        BlockPlace(p, k, i);
        b := Block(p, k, i);
        hide ArenaOf;
    }
  }

  lemma NoLiveIsEmpty(v: HeapView)
    requires HeapOk(v) && forall b :: !Live(v, b)
    ensures v == EMPTY
  {
    forall p | p in v.arenas ensures false { var b := ArenaHasLive(v, p); }
    forall k: nat | k < CLASSES ensures v.free[k] == [] {
      assert ListOk(v, k);
      NoMembers(v.free[k]);
    }
    assert v.arenas == map[];
  }

  ghost function FreeAll(v: HeapView, bs: seq<nat>): HeapView
    requires |v.free| == CLASSES
    decreases |bs|
  {
    if bs == [] || !Live(v, bs[0]) || |Free(v, bs[0]).free| != CLASSES then v else FreeAll(Free(v, bs[0]), bs[1..])
  }

  // Freeing every live block, in whatever order, returns the heap to its initial state.
  lemma {:induction false} Drain(v: HeapView, bs: seq<nat>)
    requires HeapOk(v) && Distinct(bs) && forall b :: Live(v, b) <==> b in bs
    ensures FreeAll(v, bs) == EMPTY
    decreases |bs|
  {
    if bs == [] {
      NoLiveIsEmpty(v);
    } else {
      assert bs[0] in bs;
      FreeOk(v, bs[0]);
      TailMembers(bs);
      Drain(Free(v, bs[0]), bs[1..]);
    }
  }
}
