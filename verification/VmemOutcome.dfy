// When palloc answers with pages, and with which (source/kernel/memory.c:36-76, 93-106 and 242-268):
// exactly, from the bitmaps and page tables before the call.
module VmemOutcome {
  import opened Basics
  import opened BitSets
  import opened Frames
  import opened Paging
  import opened Spaces
  import opened Vmem

  // Clear bits among the first n.
  function Clear(used: set<nat>, n: nat): nat { |Interval(0, n) - used| }

  // Free frames of the two pools.
  function KernelFree(L: Layout, p: Pools): nat { Clear(p.kernel, 8 * (L.kernelPages / 8)) }
  function UserFree(L: Layout, p: Pools): nat { Clear(p.user, 8 * (L.userPages / 8)) }

  lemma ClearTaken(used: set<nat>, n: nat, i: nat)
    requires i < n && i !in used
    ensures Clear(used + {i}, n) + 1 == Clear(used, n)
  {
    assert Interval(0, n) - (used + {i}) == (Interval(0, n) - used) - {i};
    assert i in Interval(0, n) - used;
  }

  lemma ClearNone(used: set<nat>, n: nat)
    ensures Clear(used, n) == 0 <==> forall i | 0 <= i < n :: i in used
  {
    if Clear(used, n) == 0 {
      assert Interval(0, n) - used == {};
      forall i: nat | i < n ensures i in used { assert i in Interval(0, n); }
    } else {
      var i :| i in Interval(0, n) - used;
    }
  }

  // GetOnePhysicPage succeeds exactly when the pool has a free frame, and takes one.
  lemma GetCounts(L: Layout, p: Pools, kernel: bool)
    ensures GetFrame(L, p, kernel).Some? <==> 0 < if kernel then KernelFree(L, p) else UserFree(L, p)
    ensures GetFrame(L, p, kernel).Some? ==>
              var q := GetFrame(L, p, kernel).value.1;
              && KernelFree(L, q) == KernelFree(L, p) - (if kernel then 1 else 0)
              && UserFree(L, q) == UserFree(L, p) - (if kernel then 0 else 1)
  {
    var used, n := if kernel then p.kernel else p.user, 8 * if kernel then L.KernelBytes() else L.UserBytes();
    ScanOneExact(used, n);
    ClearNone(used, n);
    if GetFrame(L, p, kernel).Some? { ClearTaken(used, n, Scan(used, n, 1).start); }
  }

  // ----- the kernel: one frame a page

  lemma KernelPageCount(L: Layout, vm: Vm, o: Owners, q: nat)
    requires CoreOk(L, vm, o) && KernelPage(q) && KFrame(vm.phys, q) == None
    ensures MapOne(L, vm, true, q).Go? <==> 0 < KernelFree(L, vm.pools)
    ensures MapOne(L, vm, true, q).Go? ==> KernelFree(L, MapOne(L, vm, true, q).vm.pools) == KernelFree(L, vm.pools) - 1
  {
    hide MapOne, KernelFree, UserFree, CoreOk, GetFrame;
    MapOneKernel(L, vm, o, q);
    GetCounts(L, vm.pools, true);
  }

  lemma FirstUnmapped(m: Memory, dirs: seq<nat>, kernel: bool, c: nat, q: nat, n: nat)
    requires 1 <= n && Unmapped(m, dirs, kernel, c, q, n)
    ensures kernel && KernelPage(q) ==> KFrame(m, q) == None
    ensures !kernel && c < |dirs| && UserPage(q) ==> FrameAt(m, Dir(m, dirs[c]), q) == None
  {
    var x := if kernel then Kernel(q) else User(c, q);
    assert Managed(dirs, x) && InRun(kernel, c, q, n, x) ==> Backing(m, dirs, x) == None;
  }

  lemma {:induction false} KernelRunCount(L: Layout, vm: Vm, o: Owners, q: nat, n: nat)
    requires CoreOk(L, vm, o) && RunFits(true, q, n) && Unmapped(vm.phys, vm.dirs, true, Who(vm), q, n)
    ensures MapRun(L, vm, true, q, n).Go? <==> n <= KernelFree(L, vm.pools)
    ensures MapRun(L, vm, true, q, n).Go? ==> KernelFree(L, MapRun(L, vm, true, q, n).vm.pools) == KernelFree(L, vm.pools) - n
    decreases n
  {
    hide CoreOk, Maps, Unmapped, MapOne, KernelFree;
    if n > 0 {
      FirstUnmapped(vm.phys, vm.dirs, true, Who(vm), q, n);
      KernelPageCount(L, vm, o, q);
      UnmappedFirst(vm.phys, vm.dirs, true, Who(vm), q, n);
      var o1 := MapOneOk(L, vm, o, true, q);
      if MapOne(L, vm, true, q).Go? {
        var vm1 := MapOne(L, vm, true, q).vm;
        UnmappedStep(vm.phys, vm1.phys, vm.dirs, true, Who(vm), q, n);
        KernelRunCount(L, vm1, o1, q + 1, n - 1);
      }
    }
  }

  // ----- a process: one user frame a page, and one kernel frame for each page table it lacks

  // Page tables missing for the pages from q on.
  function Missing(m: Memory, d: nat, q: nat, n: nat): set<nat>
  {
    set u: nat | q <= u < q + n && !HasTable(m, d, u) :: u / 1024
  }

  lemma MissingFirst(m: Memory, m1: Memory, d: nat, q: nat, n: nat)
    requires 1 <= n && HasTable(m1, d, q)
    requires forall u: nat | q <= u < q + n && u / 1024 != q / 1024 :: HasTable(m1, d, u) == HasTable(m, d, u)
    ensures |Missing(m, d, q, n)| == |Missing(m1, d, q + 1, n - 1)| + if HasTable(m, d, q) then 0 else 1
  {
    var a, b, i := Missing(m, d, q, n), Missing(m1, d, q + 1, n - 1), q / 1024;
    forall u: nat | u / 1024 == i ensures HasTable(m, d, u) == HasTable(m, d, q) && HasTable(m1, d, u) { SamePde(m, m1, d, u, q); }
    hide HasTable;
    forall x | x in a && x != i ensures x in b {
      var u: nat :| q <= u < q + n && !HasTable(m, d, u) && u / 1024 == x;
      assert !HasTable(m1, d, u);
    }
    forall x | x in b ensures x in a && x != i {
      var u: nat :| q + 1 <= u < q + 1 + (n - 1) && !HasTable(m1, d, u) && u / 1024 == x;
      assert !HasTable(m, d, u);
    }
    if HasTable(m, d, q) {
      assert i !in a;
      assert a == b;
    } else {
      assert q / 1024 in a;
      assert a == b + {i};
    }
  }

  lemma SamePde(m: Memory, m1: Memory, d: nat, u: nat, q: nat)
    requires u / 1024 == q / 1024
    ensures HasTable(m, d, u) == HasTable(m, d, q) && HasTable(m1, d, u) == HasTable(m1, d, q)
  {
  }

  lemma UserPageCount(L: Layout, vm: Vm, o: Owners, q: nat)
    requires CoreOk(L, vm, o) && vm.current.Some? && UserPage(q) && FrameAt(vm.phys, vm.cr3, q) == None
    ensures var t := if HasTable(vm.phys, vm.cr3, q) then 0 else 1;
            && (MapOne(L, vm, false, q).Go? <==> 0 < UserFree(L, vm.pools) && t <= KernelFree(L, vm.pools))
            && (MapOne(L, vm, false, q).Go? ==>
                  var p' := MapOne(L, vm, false, q).vm.pools;
                  UserFree(L, p') == UserFree(L, vm.pools) - 1 && KernelFree(L, p') == KernelFree(L, vm.pools) - t)
  {
    hide MapOne, KernelFree, UserFree, TablesOk, PoolsOk, GetFrame, FrameAt;
    GetCounts(L, vm.pools, false);
    if HasTable(vm.phys, vm.cr3, q) {
      MapOneHere(L, vm, o, q);
    } else {
      MapOneNewTable(L, vm, o, q);
      if GetFrame(L, vm.pools, false).Some? { GetCounts(L, GetFrame(L, vm.pools, false).value.1, true); }
    }
  }

  // The page's table is there afterwards, and the others are as they were.
  lemma UserPageTables(L: Layout, vm: Vm, o: Owners, q: nat)
    requires CoreOk(L, vm, o) && vm.current.Some? && UserPage(q) && FrameAt(vm.phys, vm.cr3, q) == None
    requires MapOne(L, vm, false, q).Go?
    ensures var m1 := MapOne(L, vm, false, q).vm.phys;
            && HasTable(m1, vm.cr3, q)
            && forall u: nat | UserPage(u) && u / 1024 != q / 1024 :: HasTable(m1, vm.cr3, u) == HasTable(vm.phys, vm.cr3, u)
  {
    hide MapOne, TablesOk, PoolsOk, FrameAt, HasTable;
    var p := vm.current.value;
    if HasTable(vm.phys, vm.cr3, q) {
      MapOneHere(L, vm, o, q);
      var f := GetFrame(L, vm.pools, false).value.0;
      UserTableWrite(L, vm.phys, vm.dirs, o, p, q, Entry(f, C_FLAGS));
      SameTables(vm.phys, MapOne(L, vm, false, q).vm.phys, vm.dirs, p, q);
    } else {
      MapOneNewTable(L, vm, o, q);
      var (f, pools) := GetFrame(L, vm.pools, false).value;
      var t := GetFrame(L, pools, true).value.0;
      var m1 := AddTable(vm.phys, vm.cr3, q, t);
      AddTableOk(L, vm.phys, vm.dirs, o, p, q, t);
      assert Dir(m1, vm.dirs[p]) == vm.cr3;
      SameTables(vm.phys, m1, vm.dirs, p, q);
      UserTableWrite(L, m1, vm.dirs, o[t := Table(p, q / 1024)], p, q, Entry(f, C_FLAGS));
      SameTables(m1, MapOne(L, vm, false, q).vm.phys, vm.dirs, p, q);
    }
  }

  lemma SameTables(m: Memory, m': Memory, dirs: seq<nat>, p: nat, q: nat)
    requires p < |dirs| && OnlyUserEntry(m, m', dirs, p, q / 1024)
    ensures var d := Dir(m, dirs[p]);
            forall u: nat | UserPage(u) && u / 1024 != q / 1024 :: HasTable(m', d, u) == HasTable(m, d, u)
  {
    var d := Dir(m, dirs[p]);
    forall u: nat | UserPage(u) && u / 1024 != q / 1024 ensures HasTable(m', d, u) == HasTable(m, d, u) {
      assert UserDir(u / 1024) && DirEntry(m', Dir(m, dirs[p]), u / 1024) == DirEntry(m, Dir(m, dirs[p]), u / 1024);
      assert DirEntry(m', d, u / 1024) == Load(m', PdeWord(d, u)) && DirEntry(m, d, u / 1024) == Load(m, PdeWord(d, u));
    }
  }

  lemma {:induction false} UserRunCount(L: Layout, vm: Vm, o: Owners, q: nat, n: nat)
    requires CoreOk(L, vm, o) && vm.current.Some? && USER_BASE <= q && q + n <= KERNEL_BASE
    requires Unmapped(vm.phys, vm.dirs, false, Who(vm), q, n)
    ensures MapRun(L, vm, false, q, n).Go? <==>
            n <= UserFree(L, vm.pools) && |Missing(vm.phys, vm.cr3, q, n)| <= KernelFree(L, vm.pools)
    ensures MapRun(L, vm, false, q, n).Go? ==>
              var p' := MapRun(L, vm, false, q, n).vm.pools;
              && UserFree(L, p') == UserFree(L, vm.pools) - n
              && KernelFree(L, p') == KernelFree(L, vm.pools) - |Missing(vm.phys, vm.cr3, q, n)|
    decreases n
  {
    hide CoreOk, Maps, Unmapped, MapOne, KernelFree, UserFree, Missing, HasTable;
    if n == 0 {
      NoneMissing(vm.phys, vm.cr3, q);
    } else {
      CurrentIs(L, vm, o);
      FirstUnmapped(vm.phys, vm.dirs, false, Who(vm), q, n);
      UserPageCount(L, vm, o, q);
      UnmappedFirst(vm.phys, vm.dirs, false, Who(vm), q, n);
      var o1 := MapOneOk(L, vm, o, false, q);
      if MapOne(L, vm, false, q).Go? {
        var vm1 := MapOne(L, vm, false, q).vm;
        UserPageTables(L, vm, o, q);
        MissingFirst(vm.phys, vm1.phys, vm.cr3, q, n);
        UnmappedStep(vm.phys, vm1.phys, vm.dirs, false, Who(vm), q, n);
        UserRunCount(L, vm1, o1, q + 1, n - 1);
      } else {
        TooFew(vm.phys, vm.cr3, q, n);
      }
    }
  }

  lemma NoneMissing(m: Memory, d: nat, q: nat)
    ensures |Missing(m, d, q, 0)| == 0
  {
    assert Missing(m, d, q, 0) == {};
  }

  lemma TooFew(m: Memory, d: nat, q: nat, n: nat)
    requires 1 <= n
    ensures !HasTable(m, d, q) ==> 1 <= |Missing(m, d, q, n)|
  {
    if !HasTable(m, d, q) { assert q / 1024 in Missing(m, d, q, n); }
  }

  lemma CurrentIs(L: Layout, vm: Vm, o: Owners)
    requires CoreOk(L, vm, o) && vm.current.Some?
    ensures Who(vm) < |vm.dirs| && vm.cr3 == Dir(vm.phys, vm.dirs[Who(vm)])
  {
  }

  // ----- the answers

  // s starts the lowest run of cnt clear bits below n.
  ghost predicate LowestRun(used: set<nat>, n: nat, cnt: nat, s: nat)
  {
    s + cnt <= n && RunClear(used, s, cnt) && forall t: nat | t < s :: !RunClear(used, t, cnt)
  }

  ghost predicate NoRun(used: set<nat>, n: nat, cnt: nat)
  {
    forall s: nat | s + cnt <= n :: !RunClear(used, s, cnt)
  }

  lemma ScanLowest(used: set<nat>, n: nat, cnt: nat, s: nat)
    requires 1 <= cnt && LowestRun(used, n, cnt, s)
    ensures Scan(used, n, cnt) == Found(s)
  {
    assert s !in used;
    if cnt == 1 {
      forall i | 0 <= i < s ensures i in used { assert !RunClear(used, i, 1); }
      ScanOneExact(used, n);
    } else {
      FirstRunUnique(used, 0, n + 1, cnt, s);
    }
  }

  lemma ScanRefuses(used: set<nat>, n: nat, cnt: nat)
    requires 1 <= cnt && NoRun(used, n, cnt)
    requires cnt == 1 || cnt > n + 1 || !RunClear(used, n + 1 - cnt, cnt)
    ensures Scan(used, n, cnt) == if forall i | 0 <= i < n :: i in used then ScanResult.Halted else NotFound
  {
    if cnt == 1 {
      forall i | 0 <= i < n ensures i in used { assert !RunClear(used, i, 1); }
      ScanOneExact(used, n);
    } else if exists i | 0 <= i < n :: i !in used {
      NoneFound(used, n + 1, cnt);
    }
  }

  lemma NoneFound(used: set<nat>, limit: nat, cnt: nat)
    requires NoRun(used, limit, cnt)
    ensures FirstRun(used, 0, limit, cnt) == NotFound
  {
  }

  // The kernel's request of cnt pages, when its bitmap has room: it is answered with the lowest run if
  // there are cnt free kernel frames, and never returns otherwise.
  lemma KernelAnswered(L: Layout, vm: Vm, cnt: nat, s: nat)
    requires Sound(L, vm) && 1 <= cnt < 3840 && LowestRun(vm.kbits, 8 * (L.kernelPages / 8), cnt, s)
    ensures var r := Palloc(L, vm, true, cnt);
            if cnt <= KernelFree(L, vm.pools)
            then r.Got? && r.page == 0xC0100 + s && KernelFree(L, r.vm.pools) == KernelFree(L, vm.pools) - cnt
            else r == NoReturn
  {
    hide VmOk, MapRun, KernelFree, LowestRun, Scan;
    var o: Owners :| VmOk(L, vm, o);
    GuardAside(L, vm, cnt, s);
    ScanLowest(Bits(L, vm, true), BitCount(L, true), cnt, s);
    Within(Bits(L, vm, true), BitCount(L, true), cnt, s);
    KernelPlaced(L, vm, o, s, cnt);
  }

  lemma Within(used: set<nat>, n: nat, cnt: nat, s: nat)
    requires LowestRun(used, n, cnt, s)
    ensures s + cnt <= n && RunClear(used, s, cnt)
  {
  }

  // The bit past the end does not matter to a run before it.
  lemma GuardAside(L: Layout, vm: Vm, cnt: nat, s: nat)
    requires LowestRun(vm.kbits, 8 * (L.kernelPages / 8), cnt, s)
    ensures LowestRun(Bits(L, vm, true), BitCount(L, true), cnt, s)
  {
    var n := 8 * (L.kernelPages / 8);
    forall t: nat | t < s ensures !RunClear(Bits(L, vm, true), t, cnt) {
      assert !RunClear(vm.kbits, t, cnt);
      var i :| t <= i < t + cnt && i in vm.kbits;
    }
  }

  lemma KernelPlaced(L: Layout, vm: Vm, o: Owners, s: nat, n: nat)
    requires VmOk(L, vm, o) && n > 0 && RunClear(Bits(L, vm, true), s, n) && s + n <= BitCount(L, true) + 1
    ensures var r := MapRun(L, WithBits(vm, true, Interval(s, n), {}), true, HEAP_BASE + s, n);
            && !r.Trap? && (r.Go? <==> n <= KernelFree(L, vm.pools))
            && (r.Go? ==> KernelFree(L, r.vm.pools) == KernelFree(L, vm.pools) - n)
  {
    hide CoreOk, BitsOk, MapRun, Interval, RunClear, KernelFree, MapsRun, Unmapped;
    var w := WithBits(vm, true, Interval(s, n), {});
    var o' := PlaceRun(L, vm, o, true, s, n);
    CoreOkBits(L, vm, w, o);
    KernelRunCount(L, w, o, HEAP_BASE + s, n);
  }

  // When it has not: a request for several pages is answered with the last cnt bits up to the one past
  // the end, if those are clear; is answered NULL, if not; and a full bitmap never returns.
  lemma KernelRefused(L: Layout, vm: Vm, cnt: nat)
    requires Sound(L, vm) && 1 <= cnt < 3840 && NoRun(vm.kbits, 8 * (L.kernelPages / 8), cnt)
    ensures var n, r := 8 * (L.kernelPages / 8), Palloc(L, vm, true, cnt);
            if 2 <= cnt <= n + 1 && !vm.guard && RunClear(vm.kbits, n + 1 - cnt, cnt) then
              if cnt <= KernelFree(L, vm.pools) then r.Got? && r.page == 0xC0100 + (n + 1 - cnt) else r == NoReturn
            else if forall i | 0 <= i < n :: i in vm.kbits then r == NoReturn
            else r == Null
  {
    hide VmOk, MapRun, KernelFree, Scan;
    var o: Owners :| VmOk(L, vm, o);
    var n, u := 8 * (L.kernelPages / 8), Bits(L, vm, true);
    forall s: nat | s + cnt <= n ensures !RunClear(u, s, cnt) {
      assert !RunClear(vm.kbits, s, cnt);
      var i :| s <= i < s + cnt && i in vm.kbits;
    }
    if 2 <= cnt <= n + 1 && !vm.guard && RunClear(vm.kbits, n + 1 - cnt, cnt) {
      assert u == vm.kbits;
      LastRun(u, n, cnt);
      KernelPlaced(L, vm, o, n + 1 - cnt, cnt);
    } else {
      assert forall i: nat | i < n :: i in u <==> i in vm.kbits;
      ScanRefuses(u, n, cnt);
    }
  }

  lemma LastRun(used: set<nat>, n: nat, cnt: nat)
    requires 2 <= cnt <= n + 1 && NoRun(used, n, cnt) && RunClear(used, n + 1 - cnt, cnt)
    ensures Scan(used, n, cnt) == Found(n + 1 - cnt)
  {
    assert n + 1 - cnt !in used;
    FirstRunUnique(used, 0, n + 1, cnt, n + 1 - cnt);
  }

  // A process's request, when its bitmap has room: it is answered with the lowest run if there are cnt
  // free user frames and a free kernel frame for each missing page table, and never returns otherwise.
  lemma ProcessAnswered(L: Layout, vm: Vm, cnt: nat, s: nat)
    requires Sound(L, vm) && MayAsk(vm, false) && 1 <= cnt < 3840
    requires LowestRun(vm.ubits[vm.current.value], 753592, cnt, s)
    ensures var r := Palloc(L, vm, false, cnt);
            if cnt <= UserFree(L, vm.pools) && |Missing(vm.phys, vm.cr3, 0x8048 + s, cnt)| <= KernelFree(L, vm.pools)
            then
              && r.Got? && r.page == 0x8048 + s && UserFree(L, r.vm.pools) == UserFree(L, vm.pools) - cnt
              && KernelFree(L, r.vm.pools) == KernelFree(L, vm.pools) - |Missing(vm.phys, vm.cr3, 0x8048 + s, cnt)|
            else r == NoReturn
  {
    hide VmOk, MapRun, KernelFree, UserFree, LowestRun, Scan, Missing;
    var o: Owners :| VmOk(L, vm, o);
    ScanLowest(Bits(L, vm, false), BitCount(L, false), cnt, s);
    Within(Bits(L, vm, false), BitCount(L, false), cnt, s);
    ProcessPlaced(L, vm, o, s, cnt);
  }

  lemma ProcessPlaced(L: Layout, vm: Vm, o: Owners, s: nat, n: nat)
    requires VmOk(L, vm, o) && MayAsk(vm, false) && n > 0 && RunClear(Bits(L, vm, false), s, n) && s + n <= USER_BITS
    ensures var r := MapRun(L, WithBits(vm, false, Interval(s, n), {}), false, USER_BASE + s, n);
            && !r.Trap?
            && (r.Go? <==> n <= UserFree(L, vm.pools) && |Missing(vm.phys, vm.cr3, USER_BASE + s, n)| <= KernelFree(L, vm.pools))
            && (r.Go? ==>
                  && UserFree(L, r.vm.pools) == UserFree(L, vm.pools) - n
                  && KernelFree(L, r.vm.pools) == KernelFree(L, vm.pools) - |Missing(vm.phys, vm.cr3, USER_BASE + s, n)|)
  {
    hide CoreOk, BitsOk, MapRun, Interval, RunClear, KernelFree, UserFree, Missing, MapsRun, Unmapped;
    CurrentProcess(L, vm, o);
    var w := WithBits(vm, false, Interval(s, n), {});
    var o' := PlaceRun(L, vm, o, false, s, n);
    CoreOkBits(L, vm, w, o);
    UserRunCount(L, w, o, USER_BASE + s, n);
  }

  // A process that asks for several pages when none of its clear runs is long enough is answered NULL,
  // unless the last cnt - 1 pages of user space are free: then the scan hands out the kernel's first
  // page with them, and the call never returns.
  lemma PallocPastTheEnd(L: Layout, vm: Vm, cnt: nat)
    requires Sound(L, vm) && MayAsk(vm, false) && 2 <= cnt < 3840
    requires exists i: nat :: i < 753592 && i !in vm.ubits[vm.current.value]
    requires NoRun(vm.ubits[vm.current.value], 753592, cnt)
    ensures Palloc(L, vm, false, cnt) ==
            if RunClear(vm.ubits[vm.current.value], 753592 + 1 - cnt, cnt - 1) then NoReturn else Null
  {
    hide VmOk, MapRun, WithBits, Scan;
    var o: Owners :| VmOk(L, vm, o);
    var u := vm.ubits[vm.current.value];
    UserBitsInside(L, vm, o);
    LongerRun(u, USER_BITS, cnt);
    if RunClear(u, USER_BITS + 1 - cnt, cnt) {
      LastRun(u, USER_BITS, cnt);
      var o' := PlaceRun(L, vm, o, false, USER_BITS + 1 - cnt, cnt);
    } else {
      ScanRefuses(u, USER_BITS, cnt);
    }
  }

  lemma LongerRun(used: set<nat>, n: nat, cnt: nat)
    requires 2 <= cnt <= n && n !in used
    ensures RunClear(used, n + 1 - cnt, cnt) <==> RunClear(used, n + 1 - cnt, cnt - 1)
  {
    if RunClear(used, n + 1 - cnt, cnt - 1) {
      forall i | n + 1 - cnt <= i < n + 1 - cnt + cnt ensures i !in used {
        assert i < n ==> n + 1 - cnt <= i < n + 1 - cnt + (cnt - 1);
      }
    }
  }

  lemma UserBitsInside(L: Layout, vm: Vm, o: Owners)
    requires VmOk(L, vm, o) && MayAsk(vm, false)
    ensures USER_BITS !in vm.ubits[vm.current.value]
  {
    assert vm.current.value < |vm.dirs|;
  }

  // Requests for a single page by a process whose space is full, and requests out of bounds, never return.
  lemma NeverAnswered(L: Layout, vm: Vm, kernel: bool, cnt: nat)
    requires MayAsk(vm, kernel)
    requires cnt >= 3840 || (!kernel && forall i | 0 <= i < 753592 :: i in vm.ubits[vm.current.value])
    ensures Palloc(L, vm, kernel, cnt) == NoReturn
  {
    hide MapRun;
    if cnt < 3840 {
      var u := vm.ubits[vm.current.value];
      assert FirstClear(u, 0, USER_BITS) == USER_BITS;
    }
  }

  // ----- what a new address space costs

  lemma KernelCost(L: Layout, vm: Vm, cnt: nat)
    requires Sound(L, vm) && 1 <= cnt && Palloc(L, vm, true, cnt).Got?
    ensures KernelFree(L, Palloc(L, vm, true, cnt).vm.pools) + cnt == KernelFree(L, vm.pools)
  {
    hide VmOk, MapRun, KernelFree, Scan;
    var o: Owners :| VmOk(L, vm, o);
    var u, n := Bits(L, vm, true), BitCount(L, true);
    ScanFoundIsClear(u, n, cnt);
    KernelPlaced(L, vm, o, Scan(u, n, cnt).start, cnt);
  }

  // 24 frames of the kernel pool: 94199 bytes for the virtual bitmap, and the directory.
  lemma SpaceCost(L: Layout, vm: Vm)
    requires Sound(L, vm) && NewSpace(L, vm).Got?
    ensures KernelFree(L, NewSpace(L, vm).vm.pools) + 24 == KernelFree(L, vm.pools)
    ensures 22 * 4096 < 94199 <= 23 * 4096
  {
    hide VmOk, Palloc, KernelFree, NewDirectory;
    KernelCost(L, vm, BITMAP_PAGES);
    var v := Palloc(L, vm, true, BITMAP_PAGES).vm;
    StillSound(L, vm, BITMAP_PAGES);
    KernelCost(L, v, 1);
  }

  lemma StillSound(L: Layout, vm: Vm, cnt: nat)
    requires Sound(L, vm) && Palloc(L, vm, true, cnt).Got?
    ensures Sound(L, Palloc(L, vm, true, cnt).vm)
  {
    hide Palloc, VmOk;
    OpKeeps(L, vm, Allocate(true, cnt));
  }
}
