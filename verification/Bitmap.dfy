// Byte-level bitmaps with a first-fit run scan (source/lib/kernel/bitmap.c).

/** What a bitmap means: a set of used indices, and what a scan of that set returns. */
module BitSets {

  // `Halted` is the failed ASSERT of bitmap.c:28, which spins forever (DEBUG is 1).
  datatype ScanResult = Halted | NotFound | Found(start: nat)

  predicate RunClear(used: set<nat>, s: nat, cnt: nat)
  {
    forall i | s <= i < s + cnt :: i !in used
  }

  // The lowest clear index in [i, n), or n when there is none.
  function FirstClear(used: set<nat>, i: nat, n: nat): (c: nat)
    requires i <= n
    ensures i <= c <= n
    ensures forall j | i <= j < c :: j in used
    ensures c < n ==> c !in used
    decreases n - i
  {
    if i == n || i !in used then i else FirstClear(used, i + 1, n)
  }

  // The lowest set index in [i, n), or n when there is none.
  function FirstSet(used: set<nat>, i: nat, n: nat): (c: nat)
    requires i <= n
    ensures i <= c <= n
    ensures forall j | i <= j < c :: j !in used
    ensures c < n ==> c in used
    decreases n - i
  {
    if i == n || i in used then i else FirstSet(used, i + 1, n)
  }

  // Ideal first fit: the lowest s >= from with `cnt` clear indices from s, all below `limit`.
  function FirstRun(used: set<nat>, from: nat, limit: nat, cnt: nat): (r: ScanResult)
    ensures r != Halted
    ensures r.Found? ==> from <= r.start && r.start + cnt <= limit && RunClear(used, r.start, cnt)
    ensures forall s | from <= s && s + cnt <= limit && (r.Found? ==> s < r.start) :: !RunClear(used, s, cnt)
    decreases limit - from
  {
    if limit < from + cnt then NotFound
    else if RunClear(used, from, cnt) then Found(from)
    else if limit == from then NotFound
    else FirstRun(used, from + 1, limit, cnt)
  }

  // What BitmapScan answers on a bitmap of n bits. Index n is the bit just past the end, which
  // the multi-bit search also tests; a request for zero bits stops after the first set bit.
  function Scan(used: set<nat>, n: nat, cnt: nat): ScanResult
  {
    var c := FirstClear(used, 0, n);
    if c == n then Halted
    else if cnt == 1 then Found(c)
    else if cnt == 0 then
      var z := FirstSet(used, c + 1, n + 1);
      if z == n + 1 then NotFound else Found(z + 1)
    else FirstRun(used, 0, n + 1, cnt)
  }

  // First fit is determined by its defining property.
  lemma {:induction false} FirstRunUnique(used: set<nat>, from: nat, limit: nat, cnt: nat, s: nat)
    requires from <= s && s + cnt <= limit && RunClear(used, s, cnt)
    requires forall t | from <= t < s :: !RunClear(used, t, cnt)
    ensures FirstRun(used, from, limit, cnt) == Found(s)
  {
    var r := FirstRun(used, from, limit, cnt);
    assert r.Found? ==> r.start <= s;
  }

  // A one-bit request is exact first fit whatever the bit past the end holds.
  lemma ScanOneExact(used: set<nat>, n: nat)
    ensures Scan(used, n, 1).Halted? <==> forall i | 0 <= i < n :: i in used
    ensures !Scan(used, n, 1).NotFound?
    ensures forall s: nat :: Scan(used, n, 1) == Found(s) <==>
              (s < n && s !in used && forall i | 0 <= i < s :: i in used)
  {
    var c := FirstClear(used, 0, n);
    forall s: nat | s < n && s !in used && forall i | 0 <= i < s :: i in used
      ensures s == c
    {
      assert c < s ==> c in used;
    }
  }

  // A larger request is exact first fit over the n bits exactly when the bit past the end is set,
  // or a run fits inside anyway, or no run of cnt - 1 clear bits touches the end.
  lemma ScanManyExactIff(used: set<nat>, n: nat, cnt: nat)
    requires 2 <= cnt
    requires !Scan(used, n, cnt).Halted?
    ensures Scan(used, n, cnt) == FirstRun(used, 0, n, cnt) <==>
              (n in used || n + 1 < cnt || FirstRun(used, 0, n, cnt).Found? || !RunClear(used, n + 1 - cnt, cnt - 1))
    ensures Scan(used, n, cnt) != FirstRun(used, 0, n, cnt) ==>
              cnt <= n + 1 && Scan(used, n, cnt) == Found(n + 1 - cnt)
  {
    var inside := FirstRun(used, 0, n, cnt);
    var outer := FirstRun(used, 0, n + 1, cnt);
    if inside.Found? {
      FirstRunUnique(used, 0, n + 1, cnt, inside.start);
    } else if cnt <= n + 1 {
      var s := n + 1 - cnt;
      assert RunClear(used, s, cnt) <==> (RunClear(used, s, cnt - 1) && n !in used) by {
        if RunClear(used, s, cnt - 1) && n !in used {
          forall i | s <= i < s + cnt ensures i !in used { if i < n { assert s <= i < s + (cnt - 1); } }
        }
        if RunClear(used, s, cnt) { assert n !in used; }
      }
      if RunClear(used, s, cnt) {
        forall t | 0 <= t < s ensures !RunClear(used, t, cnt) { assert t + cnt <= n; }
        FirstRunUnique(used, 0, n + 1, cnt, s);
      }
    }
  }

  // The state of the multi-bit search before it tests index `next`: the last `avail` indices are
  // clear, they are preceded by a set one, and nothing long enough has gone by.
  ghost predicate Searching(used: set<nat>, start: nat, cnt: nat, next: nat, avail: nat)
  {
    && start < next && avail <= next
    && RunClear(used, next - avail, avail)
    && (cnt == 0 ==> avail == next - start)
    && (cnt >= 2 ==> avail < cnt && (avail < next ==> next - avail - 1 in used))
    && (cnt >= 2 ==> forall s: nat | s + cnt <= next :: !RunClear(used, s, cnt))
  }

  lemma SearchStart(used: set<nat>, n: nat, start: nat, cnt: nat)
    requires cnt != 1 && start < n && start == FirstClear(used, 0, n)
    ensures Searching(used, start, cnt, start + 1, 1)
  {
    forall s: nat | 2 <= cnt && s + cnt <= start + 1 ensures !RunClear(used, s, cnt) {
      assert s in used;
    }
  }

  lemma SearchStep(used: set<nat>, n: nat, start: nat, cnt: nat, next: nat, avail: nat)
    requires cnt != 1 && start < n && start == FirstClear(used, 0, n)
    requires Searching(used, start, cnt, next, avail) && next <= n
    ensures var a := if next in used then 0 else avail + 1;
            if a == cnt then cnt <= next + 1 && Scan(used, n, cnt) == Found(next + 1 - cnt)
            else Searching(used, start, cnt, next + 1, a)
  {
    if next in used {
      if cnt == 0 {
        SetFound(used, start, n, next);
      } else {
        forall s: nat | s + cnt <= next + 1 ensures !RunClear(used, s, cnt) {
          assert s + cnt == next + 1 ==> s <= next < s + cnt;
        }
      }
    } else {
      forall i | next - avail <= i < next + 1 ensures i !in used { }
      if cnt >= 2 {
        if avail + 1 == cnt {
          FirstRunUnique(used, 0, n + 1, cnt, next + 1 - cnt);
        } else {
          forall s: nat | s + cnt <= next + 1 ensures !RunClear(used, s, cnt) {
            if s + cnt == next + 1 {
              var bad := next - avail - 1;
              assert s <= bad < s + cnt && bad in used;
            }
          }
        }
      }
    }
  }

  lemma SetFound(used: set<nat>, start: nat, n: nat, next: nat)
    requires start < next <= n && next in used
    requires forall i | start < i < next :: i !in used
    ensures FirstSet(used, start + 1, n + 1) == next
  {
    var z := FirstSet(used, start + 1, n + 1);
    assert next < z ==> next !in used;
  }

  lemma SearchEnd(used: set<nat>, n: nat, start: nat, cnt: nat, avail: nat)
    requires cnt != 1 && start < n && start == FirstClear(used, 0, n)
    requires Searching(used, start, cnt, n + 1, avail)
    ensures Scan(used, n, cnt) == NotFound
  {
    if cnt == 0 {
      var z := FirstSet(used, start + 1, n + 1);
      assert z <= n ==> n + 1 - avail <= z < n + 1;
    }
  }

  // Every answer of a non-empty request names clear indices, at most one of them past the end.
  lemma ScanFoundIsClear(used: set<nat>, n: nat, cnt: nat)
    requires 1 <= cnt
    ensures Scan(used, n, cnt).Found? ==>
              var s := Scan(used, n, cnt).start;
              RunClear(used, s, cnt) && s + cnt <= n + 1 && (cnt == 1 ==> s < n)
  {
  }

  // A scan looks only at the first n indices and, for requests other than 1, at index n.
  lemma ScanDependsOn(u: set<nat>, v: set<nat>, n: nat, cnt: nat)
    requires forall i | 0 <= i < n :: i in u <==> i in v
    requires cnt == 1 || (n in u <==> n in v)
    ensures Scan(u, n, cnt) == Scan(v, n, cnt)
  {
    ClearAgree(u, v, 0, n);
    if cnt != 1 {
      forall i | 0 <= i < n + 1 ensures i in u <==> i in v { }
      var c := FirstClear(u, 0, n);
      if c < n { SetAgree(u, v, c + 1, n + 1); }
      RunAgree(u, v, 0, n + 1, cnt);
    }
  }

  lemma {:induction false} ClearAgree(u: set<nat>, v: set<nat>, i: nat, n: nat)
    requires i <= n
    requires forall j | i <= j < n :: j in u <==> j in v
    ensures FirstClear(u, i, n) == FirstClear(v, i, n)
    decreases n - i
  {
    if i < n { ClearAgree(u, v, i + 1, n); }
  }

  lemma {:induction false} SetAgree(u: set<nat>, v: set<nat>, i: nat, n: nat)
    requires i <= n
    requires forall j | i <= j < n :: j in u <==> j in v
    ensures FirstSet(u, i, n) == FirstSet(v, i, n)
    decreases n - i
  {
    if i < n { SetAgree(u, v, i + 1, n); }
  }

  lemma {:induction false} RunAgree(u: set<nat>, v: set<nat>, from: nat, limit: nat, cnt: nat)
    requires forall j | 0 <= j < limit :: j in u <==> j in v
    ensures FirstRun(u, from, limit, cnt) == FirstRun(v, from, limit, cnt)
    decreases limit - from
  {
    if from + cnt <= limit {
      assert RunClear(u, from, cnt) == RunClear(v, from, cnt);
      if from < limit { RunAgree(u, v, from + 1, limit, cnt); }
    }
  }
}

/** The byte array itself. */
module Bitmaps {
  import opened BitSets

  // BITMAP_MASK << k
  function Mask(k: nat): bv8
    requires k < 8
  {
    if k == 0 then 1 else if k == 1 then 2 else if k == 2 then 4 else if k == 3 then 8
    else if k == 4 then 16 else if k == 5 then 32 else if k == 6 then 64 else 128
  }

  predicate BitOf(b: bv8, k: nat)
    requires k < 8
  {
    b & Mask(k) != 0
  }

  // bitmap.c:75-82 on one byte.
  function WithBit(b: bv8, k: nat, value: bool): (r: bv8)
    requires k < 8
    ensures forall j: nat | j < 8 :: BitOf(r, j) == if j == k then value else BitOf(b, j)
  {
    if value then b | Mask(k) else b & !Mask(k)
  }

  lemma FullByte(b: bv8)
    ensures b == 0xFF <==> forall k | 0 <= k < 8 :: BitOf(b, k)
  {
    if forall k | 0 <= k < 8 :: BitOf(b, k) {
      assert BitOf(b, 0) && BitOf(b, 1) && BitOf(b, 2) && BitOf(b, 3);
      assert BitOf(b, 4) && BitOf(b, 5) && BitOf(b, 6) && BitOf(b, 7);
    }
  }

  // The set bits of a byte memory among its first n, counted from its first byte.
  function BitsOf(bytes: seq<bv8>, n: nat): set<nat>
    requires n <= 8 * |bytes|
  {
    if n == 0 then {}
    else if BitOf(bytes[(n - 1) / 8], (n - 1) % 8) then BitsOf(bytes, n - 1) + {n - 1}
    else BitsOf(bytes, n - 1)
  }

  lemma {:induction false} BitsMeaning(bytes: seq<bv8>, n: nat)
    requires n <= 8 * |bytes|
    ensures forall g: nat :: g in BitsOf(bytes, n) <==> g < n && BitOf(bytes[g / 8], g % 8)
  {
    if n > 0 { BitsMeaning(bytes, n - 1); }
  }

  lemma {:induction false} ZeroBits(bytes: seq<bv8>, n: nat)
    requires n <= 8 * |bytes| && forall x | 0 <= x < |bytes| :: bytes[x] == 0
    ensures BitsOf(bytes, n) == {}
  {
    if n > 0 {
      ZeroBits(bytes, n - 1);
      assert !BitOf(bytes[(n - 1) / 8], (n - 1) % 8);
    }
  }

  function AllBits(mem: array<bv8>): set<nat>
    reads mem
  {
    BitsOf(mem[..], 8 * mem.Length)
  }

  lemma SameBit(g: nat, base: nat, i: nat)
    ensures g == 8 * base + i <==> g / 8 == base + i / 8 && g % 8 == i % 8
  {
  }

  // A slice of `len` bytes at `base` of a byte memory that other bitmaps may share.
  // The byte after the slice must be readable: the scan reads it (bitmap.c:24 and 52).
  class Bitmap {
    const mem: array<bv8>
    const base: nat
    const len: nat

    ghost predicate Valid()
    {
      base + len < mem.Length
    }

    constructor (mem: array<bv8>, base: nat, len: nat)
      requires base + len < mem.Length
      ensures this.mem == mem && this.base == base && this.len == len && Valid()
    {
      this.mem, this.base, this.len := mem, base, len;
    }

    // bitmap.c:14-19
    predicate TestBit(i: nat)
      reads mem
      requires base + i / 8 < mem.Length
      ensures TestBit(i) <==> 8 * base + i in AllBits(mem)
    {
      BitsMeaning(mem[..], 8 * mem.Length);
      assert (8 * base + i) / 8 == base + i / 8 && (8 * base + i) % 8 == i % 8;
      BitOf(mem[base + i / 8], i % 8)
    }

    // The set the bytes stand for: the bits of the slice, and the bit just past it.
    ghost function Used(): (u: set<nat>)
      reads mem
      ensures forall i: nat :: i in u <==> i <= 8 * len && 8 * base + i in AllBits(mem)
    {
      set g | g in AllBits(mem) && 8 * base <= g <= 8 * (base + len) :: g - 8 * base
    }

    // bitmap.c:8-12
    method Init()
      requires Valid()
      modifies mem
      ensures forall g: nat ::
                g in AllBits(mem) <==> !(8 * base <= g < 8 * (base + len)) && g in old(AllBits(mem))
    {
      ghost var was := mem[..];
      var x := 0;
      while x < len
        invariant x <= len
        invariant forall y | 0 <= y < mem.Length :: mem[y] == if base <= y < base + x then 0 else was[y]
      {
        mem[base + x] := 0;
        x := x + 1;
      }
      BitsMeaning(was, 8 * mem.Length);
      BitsMeaning(mem[..], 8 * mem.Length);
    }

    // bitmap.c:70-83; like the source it does not check that i lies in the slice.
    method SetBit(i: nat, value: bool)
      requires base + i / 8 < mem.Length
      modifies mem
      ensures AllBits(mem) == if value then old(AllBits(mem)) + {8 * base + i} else old(AllBits(mem)) - {8 * base + i}
    {
      var x := base + i / 8;
      ghost var was := mem[..];
      mem[x] := WithBit(mem[x], i % 8, value);
      BitsMeaning(was, 8 * mem.Length);
      BitsMeaning(mem[..], 8 * mem.Length);
      forall g: nat | g < 8 * mem.Length
        ensures BitOf(mem[g / 8], g % 8) == if g == 8 * base + i then value else BitOf(was[g / 8], g % 8)
      {
        SameBit(g, base, i);
        assert g % 8 < 8;
      }
    }

    lemma ByteBits(x: nat, i: nat)
      requires Valid() && x < len && 8 * x <= i < 8 * x + 8
      ensures i in Used() <==> BitOf(mem[base + x], i - 8 * x)
    {
      BitsMeaning(mem[..], 8 * mem.Length);
      SameBit(8 * base + i, base + x, i - 8 * x);
    }

    lemma FullByteUsed(x: nat)
      requires Valid() && x < len && mem[base + x] == 0xFF
      ensures forall i: nat | 8 * x <= i < 8 * x + 8 :: i in Used()
    {
      FullByte(mem[base + x]);
      forall i: nat | 8 * x <= i < 8 * x + 8 ensures i in Used() {
        ByteBits(x, i);
        assert BitOf(mem[base + x], i - 8 * x);
      }
    }

    // bitmap.c:21-68
    method BitmapScan(cnt: nat) returns (r: ScanResult)
      requires Valid()
      ensures r == Scan(Used(), 8 * len, cnt)
    {
      var byteIdx := 0;
      while mem[base + byteIdx] == 0xFF && byteIdx < len
        invariant byteIdx <= len
        invariant forall i: nat | i < 8 * byteIdx :: i in Used()
        decreases len - byteIdx
      {
        FullByteUsed(byteIdx);
        byteIdx := byteIdx + 1;
      }
      if byteIdx >= len {
        return Halted;
      }
      var bitIdx := FirstClearBit(byteIdx);
      var start := byteIdx * 8 + bitIdx;
      assert start == FirstClear(Used(), 0, 8 * len);
      if cnt == 1 {
        return Found(start);
      }
      r := ScanFrom(cnt, start);
    }

    // bitmap.c:34-38
    method FirstClearBit(byteIdx: nat) returns (bitIdx: nat)
      requires Valid() && byteIdx < len && mem[base + byteIdx] != 0xFF
      ensures bitIdx < 8 && 8 * byteIdx + bitIdx !in Used()
      ensures forall i: nat | 8 * byteIdx <= i < 8 * byteIdx + bitIdx :: i in Used()
    {
      var byte := mem[base + byteIdx];
      FullByte(byte);
      bitIdx := 0;
      while BitOf(byte, bitIdx)
        invariant bitIdx < 8
        invariant forall k | 0 <= k < bitIdx :: BitOf(byte, k)
        decreases 8 - bitIdx
      {
        assert forall k | 0 <= k < bitIdx + 1 :: BitOf(byte, k);
        bitIdx := bitIdx + 1;
      }
      forall i: nat | 8 * byteIdx <= i <= 8 * byteIdx + bitIdx
        ensures i in Used() <==> i < 8 * byteIdx + bitIdx
      {
        ByteBits(byteIdx, i);
      }
    }

    // bitmap.c:46-67: the search that starts at the first clear bit.
    method ScanFrom(cnt: nat, start: nat) returns (r: ScanResult)
      requires Valid() && cnt != 1
      requires start < 8 * len && start == FirstClear(Used(), 0, 8 * len)
      ensures r == Scan(Used(), 8 * len, cnt)
    {
      ghost var n := 8 * len;
      ghost var used := Used();
      hide Scan, Searching, FirstClear;
      var bitsLeft := 8 * len - start;
      var nextBit := start + 1;
      var avail := 1;
      SearchStart(used, n, start, cnt);
      while bitsLeft > 0
        invariant 0 <= bitsLeft && bitsLeft + nextBit == n + 1
        invariant Searching(used, start, cnt, nextBit, avail)
      {
        bitsLeft := bitsLeft - 1;
        ghost var before := avail;
        if !TestBit(nextBit) {
          avail := avail + 1;
        } else {
          avail := 0;
        }
        SearchStep(used, n, start, cnt, nextBit, before);
        if avail == cnt {
          return Found(nextBit + 1 - cnt);
        }
        nextBit := nextBit + 1;
      }
      SearchEnd(used, n, start, cnt, avail);
      return NotFound;
    }
  }
}
