// Physical frame pools (source/kernel/memory.c:93-124 and 190-240).
// Addresses that the source keeps page-aligned are written as frame numbers (address / 4096).

/** Pool layout and the pools as bit sets. */
module Frames {
  import opened Basics
  import opened BitSets

  const PAGE_SIZE := 4096
  const MEM_BITMAP_BASE := 0xC009A000
  const MAIN_PCB := 0xC009E000       // the page below the boot stack top 0xC009F000
  const BOOT := 0x100                // the boot directory: frame of PAGE_DIR_TABLE_POS
  const KERNEL_FIRST := 0x200        // frame of used_mem: low 1 MiB plus 256 page-table pages

  // memory.c:193-201: how VmemPoolInit splits the free pages.
  datatype Layout = Layout(kernelPages: nat, userPages: nat) {
    function KernelBytes(): nat { kernelPages / 8 }
    function UserBytes(): nat { userPages / 8 }
    function UserFirst(): nat { KERNEL_FIRST + kernelPages }
    // The frames the two bitmaps can name.
    predicate KernelFrame(f: nat) { KERNEL_FIRST <= f < KERNEL_FIRST + 8 * KernelBytes() }
    predicate UserFrame(f: nat) { UserFirst() <= f < UserFirst() + 8 * UserBytes() }
  }

  function LayoutOf(allMem: nat): Layout
    requires KERNEL_FIRST * PAGE_SIZE <= allMem
  {
    var free := (allMem - KERNEL_FIRST * PAGE_SIZE) / PAGE_SIZE;
    Layout(free / 2, free - free / 2)
  }

  // Every frame a pool bitmap can name lies in that pool's range, inside memory, above the boot
  // directory and the 255 page tables behind it, and in one pool only.
  lemma PoolsLieInMemory(allMem: nat, f: nat)
    requires KERNEL_FIRST * PAGE_SIZE <= allMem
    ensures var L := LayoutOf(allMem);
            && !(L.KernelFrame(f) && L.UserFrame(f))
            && (L.KernelFrame(f) || L.UserFrame(f) ==> (f + 1) * PAGE_SIZE <= allMem && BOOT + 255 < f)
            && (L.KernelFrame(f) ==> f < L.UserFirst())
            && (L.UserFrame(f) ==> f < L.UserFirst() + L.userPages)
  {
  }

  // The kernel pool starts right behind the last boot table, 0x1FF; the user pool follows it; they are of
  // one size, up to a page, and together reach to the end of memory, up to a page; and each bitmap
  // names all frames of its pool but at most the last 7.
  lemma PoolsCoverMemory(allMem: nat)
    requires 0x200000 <= allMem
    ensures var L := LayoutOf(allMem);
            && L.kernelPages <= L.userPages <= L.kernelPages + 1
            && (0x200 + L.kernelPages + L.userPages) * 4096 <= allMem < (0x200 + L.kernelPages + L.userPages + 1) * 4096
            && L.UserFirst() == 0x200 + L.kernelPages
            && (forall f: nat | 0x200 <= f && f + 7 < L.UserFirst() :: L.KernelFrame(f))
            && (forall f: nat | L.UserFirst() <= f && f + 7 < L.UserFirst() + L.userPages :: L.UserFrame(f))
  {
  }

  // The three adjacent bitmaps stay below the main thread's PCB page exactly up to this size, and
  // the byte that a scan reads past the last one stays below it exactly one page earlier.
  lemma BitmapsBelowMainPcb(allMem: nat)
    requires KERNEL_FIRST * PAGE_SIZE <= allMem
    ensures var L := LayoutOf(allMem);
            var end := MEM_BITMAP_BASE + 2 * L.KernelBytes() + L.UserBytes();
            && (end <= MAIN_PCB <==> allMem < KERNEL_FIRST * PAGE_SIZE + 87392 * PAGE_SIZE)
            && (end < MAIN_PCB <==> allMem < KERNEL_FIRST * PAGE_SIZE + 87391 * PAGE_SIZE)
  {
    var free := (allMem - KERNEL_FIRST * PAGE_SIZE) / PAGE_SIZE;
    assert LayoutOf(allMem).KernelBytes() == free / 16;
    assert LayoutOf(allMem).UserBytes() == (free + 1) / 16;
  }

  // Indices of the set bits of the two pool bitmaps.
  datatype Pools = Pools(kernel: set<nat>, user: set<nat>) {
    predicate In(L: Layout)
    {
      (forall i | i in kernel :: i < 8 * L.KernelBytes()) && (forall i | i in user :: i < 8 * L.UserBytes())
    }
    predicate Marked(L: Layout, f: nat)
    {
      if L.KernelFrame(f) then f - KERNEL_FIRST in kernel
      else L.UserFrame(f) && f - L.UserFirst() in user
    }
  }

  // memory.c:93-106; None is the failed ASSERT inside the scan.
  function GetFrame(L: Layout, p: Pools, fromKernel: bool): Option<(nat, Pools)>
  {
    if fromKernel then
      match Scan(p.kernel, 8 * L.KernelBytes(), 1)
      case Found(i) => Some((KERNEL_FIRST + i, p.(kernel := p.kernel + {i})))
      case _ => None
    else
      match Scan(p.user, 8 * L.UserBytes(), 1)
      case Found(i) => Some((L.UserFirst() + i, p.(user := p.user + {i})))
      case _ => None
  }

  lemma GetFrameMarks(L: Layout, p: Pools, fromKernel: bool)
    requires GetFrame(L, p, fromKernel).Some?
    ensures var (f, q) := GetFrame(L, p, fromKernel).value;
            && (if fromKernel then L.KernelFrame(f) else L.UserFrame(f))
            && (p.In(L) ==> q.In(L))
            && !p.Marked(L, f)
            && forall g: nat :: q.Marked(L, g) <==> g == f || p.Marked(L, g)
  {
    ScanOneExact(if fromKernel then p.kernel else p.user, 8 * if fromKernel then L.KernelBytes() else L.UserBytes());
  }

  // memory.c:109-124. The first user frame fails the test `>` and is cleared through the kernel
  // bitmap, whose bytes past the end are those of the user bitmap.
  function PutFrame(L: Layout, p: Pools, f: nat): Pools
    requires KERNEL_FIRST <= f
  {
    if f > L.UserFirst() then p.(user := p.user - {f - L.UserFirst()})
    else if f - KERNEL_FIRST < 8 * L.KernelBytes() then p.(kernel := p.kernel - {f - KERNEL_FIRST})
    else p.(user := p.user - {f - KERNEL_FIRST - 8 * L.KernelBytes()})
  }

  // A frame that ReturnOnePhysicPage clears at its own bit.
  predicate Returnable(L: Layout, f: nat)
  {
    f == L.UserFirst() ==> L.kernelPages % 8 == 0
  }

  lemma PutFrameMarks(L: Layout, p: Pools, f: nat)
    requires p.In(L) && (L.KernelFrame(f) || L.UserFrame(f)) && Returnable(L, f)
    ensures PutFrame(L, p, f).In(L)
    ensures forall g: nat :: PutFrame(L, p, f).Marked(L, g) <==> g != f && p.Marked(L, g)
  {
  }

  // Returning a frame undoes taking it, except for the first user frame when the number of kernel
  // pages is not a multiple of 8.
  lemma ReturnUndoesGet(L: Layout, p: Pools, fromKernel: bool)
    requires p.In(L) && GetFrame(L, p, fromKernel).Some?
    ensures var (f, q) := GetFrame(L, p, fromKernel).value;
            PutFrame(L, q, f) == p <==> Returnable(L, f)
  {
    var (f, q) := GetFrame(L, p, fromKernel).value;
    GetFrameMarks(L, p, fromKernel);
    if f == L.UserFirst() && L.kernelPages % 8 != 0 {
      assert 0 in PutFrame(L, q, f).user && 0 !in p.user;
    } else if fromKernel {
      assert q.kernel - {f - KERNEL_FIRST} == p.kernel;
    } else {
      assert q.user - {f - L.UserFirst()} == p.user;
    }
  }

  // Runs of the two pools: `held` are the frames handed out and not returned.
  datatype Request = Get(fromKernel: bool) | Put(frame: nat)
  datatype Ledger = Ledger(pools: Pools, held: set<nat>, clash: bool)

  // None: the request halts, or returns a frame the caller does not hold.
  function Serve(L: Layout, s: Ledger, r: Request): Option<Ledger>
  {
    match r
    case Get(k) =>
      (match GetFrame(L, s.pools, k)
       case None => None
       case Some((f, q)) => Some(Ledger(q, s.held + {f}, s.clash || f in s.held)))
    case Put(f) =>
      if f in s.held && KERNEL_FIRST <= f then Some(Ledger(PutFrame(L, s.pools, f), s.held - {f}, s.clash)) else None
  }

  function Serving(L: Layout, s: Ledger, rs: seq<Request>): Option<Ledger>
    decreases rs
  {
    if rs == [] then Some(s)
    else match Serve(L, s, rs[0])
      case None => None
      case Some(t) => Serving(L, t, rs[1..])
  }

  const EMPTY := Ledger(Pools({}, {}), {}, false)

  // No run hands out a frame that is still held.
  ghost predicate NeverClashes(L: Layout)
  {
    forall rs: seq<Request> :: Serving(L, EMPTY, rs).Some? ==> !Serving(L, EMPTY, rs).value.clash
  }

  ghost predicate Balanced(L: Layout, s: Ledger)
  {
    && s.pools.In(L) && !s.clash
    && (forall f | f in s.held :: L.KernelFrame(f) || L.UserFrame(f))
    && (forall f: nat :: s.pools.Marked(L, f) <==> f in s.held)
  }

  lemma {:induction false} BalancedRun(L: Layout, s: Ledger, rs: seq<Request>)
    requires Balanced(L, s) && L.kernelPages % 8 == 0
    ensures Serving(L, s, rs).Some? ==> Balanced(L, Serving(L, s, rs).value)
    decreases rs
  {
    if rs != [] && Serve(L, s, rs[0]).Some? {
      var t := Serve(L, s, rs[0]).value;
      match rs[0] {
        case Get(k) => GetFrameMarks(L, s.pools, k);
        case Put(f) => PutFrameMarks(L, s.pools, f);
      }
      BalancedRun(L, t, rs[1..]);
    }
  }

  // Requests for n user frames. The failing family takes eight, returns the first, takes one more.
  function UserGets(n: nat): seq<Request>
  {
    seq(n, _ => Get(false))
  }

  function Interval(lo: nat, n: nat): (r: set<nat>)
    ensures forall i: nat :: i in r <==> lo <= i < lo + n
  {
    if n == 0 then {} else Interval(lo, n - 1) + {lo + n - 1}
  }

  lemma {:induction false} TakeUser(L: Layout, n: nat)
    requires n <= 8 <= 8 * L.UserBytes()
    ensures Serving(L, EMPTY, UserGets(n)) ==
            Some(Ledger(Pools({}, Interval(0, n)), Interval(L.UserFirst(), n), false))
  {
    if n > 0 {
      TakeUser(L, n - 1);
      var u := Interval(0, n - 1);
      assert UserGets(n) == UserGets(n - 1) + [Get(false)];
      ServingAppend(L, EMPTY, UserGets(n - 1), Get(false));
      ScanOneExact(u, 8 * L.UserBytes());
      assert Scan(u, 8 * L.UserBytes(), 1) == Found(n - 1);
    }
  }

  lemma {:induction false} ServingAppend(L: Layout, s: Ledger, rs: seq<Request>, r: Request)
    ensures Serving(L, s, rs + [r]) ==
            match Serving(L, s, rs) { case None => None case Some(t) => Serve(L, t, r) }
    decreases rs
  {
    if rs == [] {
      assert rs + [r] == [r];
      assert Serve(L, s, r).Some? ==> Serving(L, Serve(L, s, r).value, []) == Serve(L, s, r);
    } else {
      assert (rs + [r])[1..] == rs[1..] + [r];
      if Serve(L, s, rs[0]).Some? { ServingAppend(L, Serve(L, s, rs[0]).value, rs[1..], r); }
    }
  }

  // A held frame is handed out a second time.
  lemma SecondOwner(L: Layout)
    requires 1 <= L.UserBytes() && L.kernelPages % 8 != 0
    ensures var rs := UserGets(8) + [Put(L.UserFirst())] + [Get(false)];
            Serving(L, EMPTY, rs).Some? && Serving(L, EMPTY, rs).value.clash
  {
    TakeUser(L, 8);
    var u, held := Interval(0, 8), Interval(L.UserFirst(), 8);
    var s := Ledger(Pools({}, u), held, false);
    var r := L.kernelPages % 8;
    var t := Serve(L, s, Put(L.UserFirst())).value;
    assert t == Ledger(Pools({}, u - {r}), held - {L.UserFirst()}, false);
    ScanOneExact(u - {r}, 8 * L.UserBytes());
    assert Scan(u - {r}, 8 * L.UserBytes(), 1) == Found(r);
    ServingAppend(L, EMPTY, UserGets(8), Put(L.UserFirst()));
    ServingAppend(L, EMPTY, UserGets(8) + [Put(L.UserFirst())], Get(false));
  }

  // Over all runs, frames are handed out exclusively exactly when kernelPages is a multiple of 8.
  lemma ExclusiveIff(L: Layout)
    requires 1 <= L.UserBytes()
    ensures NeverClashes(L) <==> L.kernelPages % 8 == 0
  {
    if L.kernelPages % 8 == 0 {
      forall rs: seq<Request> ensures Serving(L, EMPTY, rs).Some? ==> !Serving(L, EMPTY, rs).value.clash {
        BalancedRun(L, EMPTY, rs);
      }
    } else {
      SecondOwner(L);
    }
  }
}

/** The pools as VmemPoolInit lays them out: three bitmaps side by side in one byte array. */
module FramePools {
  import opened Basics
  import opened BitSets
  import opened Bitmaps
  import opened Frames

  class PhysicalPools {
    const L: Layout
    const mem: array<bv8>
    const kernel: Bitmap
    const user: Bitmap
    const kernelPages: Bitmap  // kernel_vaddr.vaddr_bitmap

    ghost predicate Valid()
    {
      && kernel.mem == user.mem == kernelPages.mem == mem
      && kernel.len == kernelPages.len == L.KernelBytes() && user.len == L.UserBytes()
      && user.base == kernel.base + kernel.len && kernelPages.base == user.base + user.len
      && kernelPages.Valid()
      && L.kernelPages <= L.userPages
    }

    ghost function View(): (p: Pools)
      reads mem
      requires Valid()
      ensures p.In(L)
    {
      ViewOf(AllBits(mem))
    }

    // The two pools within the set bits of the whole byte memory.
    ghost function ViewOf(a: set<nat>): (p: Pools)
      ensures forall i: nat :: i in p.kernel <==> i < 8 * kernel.len && 8 * kernel.base + i in a
      ensures forall i: nat :: i in p.user <==> i < 8 * user.len && 8 * user.base + i in a
    {
      Pools(set g | g in a && 8 * kernel.base <= g < 8 * (kernel.base + kernel.len) :: g - 8 * kernel.base,
            set g | g in a && 8 * user.base <= g < 8 * (user.base + user.len) :: g - 8 * user.base)
    }

    lemma ViewAddKernel(a: set<nat>, i: nat)
      requires Valid() && i < 8 * kernel.len
      ensures ViewOf(a + {8 * kernel.base + i}) == ViewOf(a).(kernel := ViewOf(a).kernel + {i})
    {
      var v := ViewOf(a + {8 * kernel.base + i});
      assert v.kernel == ViewOf(a).kernel + {i};
      assert v.user == ViewOf(a).user;
    }

    lemma ViewAddUser(a: set<nat>, i: nat)
      requires Valid() && i < 8 * user.len
      ensures ViewOf(a + {8 * user.base + i}) == ViewOf(a).(user := ViewOf(a).user + {i})
    {
      var v := ViewOf(a + {8 * user.base + i});
      assert v.user == ViewOf(a).user + {i};
      assert v.kernel == ViewOf(a).kernel;
    }

    // The pools lie below the virtual bitmap.
    lemma ViewSame(a: set<nat>, a': set<nat>)
      requires Valid() && forall g: nat | g < 8 * kernelPages.base :: g in a <==> g in a'
      ensures ViewOf(a') == ViewOf(a)
    {
      assert ViewOf(a').kernel == ViewOf(a).kernel;
      assert ViewOf(a').user == ViewOf(a).user;
    }

    lemma ViewRemove(a: set<nat>, f: nat)
      requires Valid() && (L.KernelFrame(f) || L.UserFrame(f))
      ensures var g := if f > L.UserFirst() then 8 * user.base + (f - L.UserFirst())
                       else 8 * kernel.base + (f - KERNEL_FIRST);
              ViewOf(a - {g}) == PutFrame(L, ViewOf(a), f)
    {
      var p := PutFrame(L, ViewOf(a), f);
      if f > L.UserFirst() {
        var v := ViewOf(a - {8 * user.base + (f - L.UserFirst())});
        assert v.user == p.user && v.kernel == p.kernel;
      } else {
        var v := ViewOf(a - {8 * kernel.base + (f - KERNEL_FIRST)});
        assert v.kernel == p.kernel;
        assert v.user == p.user;
      }
    }

    // memory.c:190-240; `base` is the index of MEM_BITMAP_BASE in the byte memory.
    constructor (mem: array<bv8>, base: nat, allMem: nat)
      requires KERNEL_FIRST * PAGE_SIZE <= allMem
      requires base + 2 * LayoutOf(allMem).KernelBytes() + LayoutOf(allMem).UserBytes() < mem.Length
      modifies mem
      ensures Valid() && this.mem == mem && L == LayoutOf(allMem)
      ensures View() == Pools({}, {})
      ensures forall i: nat | i < 8 * kernelPages.len :: i !in kernelPages.Used()
      ensures forall g: nat | !(8 * base <= g < 8 * (base + 2 * L.KernelBytes() + L.UserBytes())) ::
                g in AllBits(mem) <==> g in old(AllBits(mem))
    {
      var lay := LayoutOf(allMem);
      L := lay;
      this.mem := mem;
      var k, u := lay.KernelBytes(), lay.UserBytes();
      var kb := new Bitmap(mem, base, k);
      var ub := new Bitmap(mem, base + k, u);
      var vb := new Bitmap(mem, base + k + u, k);
      kernel, user, kernelPages := kb, ub, vb;
      new;
      vb.Init();
      kb.Init();
      ub.Init();
      assert View().kernel == {} && View().user == {};
    }

    // memory.c:93-106
    method GetOnePhysicPage(fromKernel: bool) returns (r: Option<nat>)
      requires Valid()
      modifies mem
      ensures GetFrame(L, old(View()), fromKernel) == if r.Some? then Some((r.value, View())) else None
      ensures r.None? ==> View() == old(View())
      ensures forall g: nat | 8 * kernelPages.base <= g :: g in AllBits(mem) <==> g in old(AllBits(mem))
    {
      hide Scan, ViewOf, AllBits;
      if fromKernel {
        r := TakeKernelFrame();
      } else {
        r := TakeUserFrame();
      }
    }

    method TakeKernelFrame() returns (r: Option<nat>)
      requires Valid()
      modifies mem
      ensures GetFrame(L, old(View()), true) == if r.Some? then Some((r.value, View())) else None
      ensures r.None? ==> View() == old(View())
      ensures forall g: nat | 8 * kernelPages.base <= g :: g in AllBits(mem) <==> g in old(AllBits(mem))
    {
      ghost var a, was := AllBits(mem), View();
      hide Scan, ViewOf, AllBits;
      var i := TakeBit(kernel, was.kernel);
      if i.None? { return None; }
      ViewAddKernel(a, i.value);
      return Some(KERNEL_FIRST + i.value);
    }

    method TakeUserFrame() returns (r: Option<nat>)
      requires Valid()
      modifies mem
      ensures GetFrame(L, old(View()), false) == if r.Some? then Some((r.value, View())) else None
      ensures r.None? ==> View() == old(View())
      ensures forall g: nat | 8 * kernelPages.base <= g :: g in AllBits(mem) <==> g in old(AllBits(mem))
    {
      ghost var a, was := AllBits(mem), View();
      hide Scan, ViewOf, AllBits;
      var i := TakeBit(user, was.user);
      if i.None? { return None; }
      ViewAddUser(a, i.value);
      return Some(L.UserFirst() + i.value);
    }

    method TakeBit(pool: Bitmap, ghost bits: set<nat>) returns (r: Option<nat>)
      requires Valid() && (pool == kernel || pool == user)
      requires forall i: nat :: i in bits <==> i < 8 * pool.len && i in pool.Used()
      modifies mem
      ensures r.None? ==> Scan(bits, 8 * pool.len, 1).Halted? && AllBits(mem) == old(AllBits(mem))
      ensures r.Some? ==> Scan(bits, 8 * pool.len, 1) == Found(r.value)
      ensures r.Some? ==> r.value < 8 * pool.len && AllBits(mem) == old(AllBits(mem)) + {8 * pool.base + r.value}
    {
      var s := pool.BitmapScan(1);
      ScanDependsOn(pool.Used(), bits, 8 * pool.len, 1);
      ScanOneExact(bits, 8 * pool.len);
      if s.Halted? { return None; }
      pool.SetBit(s.start, true);
      r := Some(s.start);
    }

    // memory.c:109-124
    method ReturnOnePhysicPage(f: nat)
      requires Valid() && (L.KernelFrame(f) || L.UserFrame(f))
      modifies mem
      ensures View() == PutFrame(L, old(View()), f)
      ensures forall g: nat | 8 * kernelPages.base <= g :: g in AllBits(mem) <==> g in old(AllBits(mem))
    {
      ViewRemove(AllBits(mem), f);
      if f > L.UserFirst() {
        user.SetBit(f - L.UserFirst(), false);
      } else {
        kernel.SetBit(f - KERNEL_FIRST, false);
      }
    }
  }
}
