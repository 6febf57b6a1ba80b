// Which block sys_malloc gives: how large it is, and in what order free blocks are used again
// (source/kernel/memory.c:378-388, 450-514 and 540-561).
module HeapOrder {
  import opened HeapSpec
  import opened HeapCode
  import opened HeapRuns

  // A small request is rounded up to a power of two of at least 16 bytes, and wastes less than half of
  // its block from there on; a large one to whole pages less the header.
  lemma Rounded(v: HeapView, size: nat, page: nat)
    requires HeapOk(v) && 0 < size
    requires size <= 1024 ==> v.free[ClassOf(size)] != [] || Unused(v, page, 1)
    requires size > 1024 ==> Unused(v, page, (size + 12 + 4095) / 4096)
    ensures var v', b := HeapAfter(v, size, page), AddressAfter(v, size, page);
            && |v'.free| == CLASSES && Live(v', b)
            && var bytes := 4 * Extent(v', b);
               if size <= 1024 then
                 bytes in {16, 32, 64, 128, 256, 512, 1024} && size <= bytes && (bytes == 16 || bytes < 2 * size)
               else bytes + 12 == 4096 * ((size + 12 + 4095) / 4096)
  {
    if size <= 1024 {
      MallocSmallOk(v, ClassOf(size), page);
    } else {
      MallocLargeOk(v, page, PagesFor(size));
    }
  }

  // ----- first freed, first used again

  // n requests for class k that need no new page.
  function Mallocs(v: HeapView, k: nat, n: nat): (r: HeapView)
    requires |v.free| == CLASSES && k < CLASSES
    ensures |r.free| == CLASSES
  {
    if n == 0 then v else MallocSmall(Mallocs(v, k, n - 1), k, 0)
  }

  // Free blocks are handed out in the order of the list.
  lemma {:induction false} ServedInOrder(v: HeapView, k: nat, n: nat)
    requires |v.free| == CLASSES && k < CLASSES && n <= |v.free[k]|
    ensures Mallocs(v, k, n) == v.(free := v.free[k := v.free[k][n..]])
    ensures n < |v.free[k]| ==> MallocSmallAddress(Mallocs(v, k, n), k, 0) == v.free[k][n]
  {
    if n == 0 {
      assert v.free[k := v.free[k][0..]] == v.free;
    } else {
      ServedInOrder(v, k, n - 1);
      assert v.free[k][n - 1..][1..] == v.free[k][n..];
    }
  }

  // A block freed while others of its class are free is handed out again after exactly those, unless
  // its arena is given up.
  lemma FreedLast(v: HeapView, b: nat)
    requires HeapOk(v) && Live(v, b) && v.arenas[ArenaOf(b)].Small? && ArenaOf(b) in Free(v, b).arenas
    ensures var k, v' := v.arenas[ArenaOf(b)].k, Free(v, b);
            && k < CLASSES && |v'.free| == CLASSES
            && (forall i: nat | i < |v.free[k]| :: MallocSmallAddress(Mallocs(v', k, i), k, 0) == v.free[k][i])
            && MallocSmallAddress(Mallocs(v', k, |v.free[k]|), k, 0) == b
  {
    var k, v' := v.arenas[ArenaOf(b)].k, Free(v, b);
    assert v'.free[k] == v.free[k] + [b];
    forall i: nat | i <= |v.free[k]| ensures MallocSmallAddress(Mallocs(v', k, i), k, 0) == v'.free[k][i] {
      ServedInOrder(v', k, i);
    }
  }

  // A fresh page is used from its header upwards: the requests of one class that follow get block after
  // block, until (4096 - 12) / size of them fill it.
  lemma FreshInOrder(v: HeapView, k: nat, p: nat, i: nat)
    requires |v.free| == CLASSES && k < CLASSES && v.free[k] == [] && 0 < i < (4096 - 12) / (4 * BlockWords(k))
    ensures MallocSmallAddress(v, k, p) == p + HEADER_WORDS
    ensures MallocSmallAddress(Mallocs(MallocSmall(v, k, p), k, i - 1), k, 0) == p + HEADER_WORDS + i * BlockWords(k)
  {
    AsManyAsFit(k);
    var v1, all := MallocSmall(v, k, p), Fresh(p, k, BlockSum(k));
    assert [] + all == all;
    assert v1.free[k] == all[1..];
    ServedInOrder(v1, k, i - 1);
    assert Block(p, k, i) == p + HEADER_WORDS + i * BlockWords(k);
  }

  // Then the next request needs another page.
  lemma FreshUsedUp(v: HeapView, k: nat, p: nat)
    requires |v.free| == CLASSES && k < CLASSES && v.free[k] == []
    ensures Mallocs(MallocSmall(v, k, p), k, (4096 - 12) / (4 * BlockWords(k)) - 1).free[k] == []
  {
    AsManyAsFit(k);
    var v1, all := MallocSmall(v, k, p), Fresh(p, k, BlockSum(k));
    assert [] + all == all;
    ServedInOrder(v1, k, BlockSum(k) - 1);
  }
}
