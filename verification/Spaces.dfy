// The page tables of all address spaces together: who owns each frame, and what every edit keeps
// (source/kernel/memory.c:93-162, source/userprog/process.c:39-60, source/boot/loader.S:136-181).
module Spaces {
  import opened Basics
  import opened Frames
  import opened Paging

  const FIRST_TABLE := 0x101     // the 255 kernel page tables follow it
  const KERNEL_BASE := 0xC0000   // first kernel page
  const HEAP_BASE := 0xC0100     // KERNEL_HEAP_BASE as a page number
  const KERNEL_TOP := 0xFFC00    // first page of the self-map window
  const USER_DIRS := 768         // directory entries below the kernel's

  // What a frame in use is used for: a kernel page, the page table of entry i of a process's
  // directory, or a page of a process.
  datatype Owner = KPage(q: nat) | Table(p: nat, i: nat) | UPage(p: nat, q: nat)
  type Owners = map<nat, Owner>

  predicate KernelPage(q: nat) { HEAP_BASE <= q < KERNEL_TOP }
  predicate UserPage(q: nat) { 1024 <= q < KERNEL_BASE }
  predicate UserDir(i: nat) { 1 <= i < USER_DIRS }

  // The kernel tables are contiguous, so the entry of kernel page q is one word of them.
  function KWord(q: nat): nat
    requires KERNEL_BASE <= q
  {
    FIRST_TABLE * DIRECTORY + (q - KERNEL_BASE)
  }

  function KFrame(m: Memory, q: nat): Option<nat>
    requires KERNEL_BASE <= q
  {
    var e := Load(m, KWord(q));
    if Present(e) then Some(FrameOf(e)) else None
  }

  function DirEntry(m: Memory, d: nat, i: nat): nat { Load(m, d * DIRECTORY + i) }

  // Entries 0 and 768 to 1022 lead to the kernel tables, entry 1023 to the directory itself.
  ghost predicate KernelPart(m: Memory, d: nat)
  {
    && (forall i: nat | USER_DIRS <= i < WINDOW :: DirEntry(m, d, i) == Entry(FIRST_TABLE + (i - USER_DIRS), BOOT_FLAGS))
    && DirEntry(m, d, 0) == Entry(FIRST_TABLE, BOOT_FLAGS)
    && DirEntry(m, d, WINDOW) == Entry(d, BOOT_FLAGS)
  }

  // dirs: the kernel page through which each process's directory was created.
  function Dir(m: Memory, dp: nat): nat
  {
    if KernelPage(dp) && KFrame(m, dp).Some? then KFrame(m, dp).value else 0
  }

  predicate Owns(o: Owners, f: nat, w: Owner) { f in o && o[f] == w }

  predicate OwnerOk(L: Layout, m: Memory, dirs: seq<nat>, f: nat, w: Owner)
  {
    match w
    case KPage(q) => KernelPage(q) && KFrame(m, q) == Some(f) && L.KernelFrame(f)
    case Table(p, i) =>
      && p < |dirs| && UserDir(i) && L.KernelFrame(f)
      && Present(DirEntry(m, Dir(m, dirs[p]), i)) && FrameOf(DirEntry(m, Dir(m, dirs[p]), i)) == f
    case UPage(p, q) => p < |dirs| && UserPage(q) && FrameAt(m, Dir(m, dirs[p]), q) == Some(f) && L.UserFrame(f)
  }

  // The first megabyte stays mapped at KERNEL_BASE.
  ghost predicate LowOk(m: Memory)
  {
    forall q: nat | KERNEL_BASE <= q < HEAP_BASE :: KFrame(m, q) == Some(q - KERNEL_BASE)
  }

  ghost predicate DirsOk(m: Memory, dirs: seq<nat>)
  {
    && KernelPart(m, BOOT) && LowOk(m)
    && (forall p: nat | p < |dirs| :: KernelPage(dirs[p]) && KFrame(m, dirs[p]).Some? && KernelPart(m, Dir(m, dirs[p])))
    && (forall p: nat, r: nat | p < r < |dirs| :: dirs[p] != dirs[r])
  }

  // Every entry in use leads to a frame owned for exactly that entry.
  ghost predicate EntriesOk(m: Memory, dirs: seq<nat>, o: Owners)
  {
    && (forall q: nat | KernelPage(q) && KFrame(m, q).Some? :: Owns(o, KFrame(m, q).value, KPage(q)))
    && (forall p: nat, i: nat | p < |dirs| && UserDir(i) && Present(DirEntry(m, Dir(m, dirs[p]), i)) ::
          Owns(o, FrameOf(DirEntry(m, Dir(m, dirs[p]), i)), Table(p, i)))
    && (forall p: nat, q: nat | p < |dirs| && UserPage(q) && FrameAt(m, Dir(m, dirs[p]), q).Some? ::
          Owns(o, FrameAt(m, Dir(m, dirs[p]), q).value, UPage(p, q)))
  }

  ghost predicate OwnersOk(L: Layout, m: Memory, dirs: seq<nat>, o: Owners)
  {
    forall f: nat | f in o :: OwnerOk(L, m, dirs, f, o[f])
  }

  ghost predicate TablesOk(L: Layout, m: Memory, dirs: seq<nat>, o: Owners)
  {
    DirsOk(m, dirs) && EntriesOk(m, dirs, o) && OwnersOk(L, m, dirs, o)
  }

  // ----- what it means

  // All address spaces translate every kernel address below the window alike.
  lemma KernelAgrees(m: Memory, d: nat, q: nat)
    requires KernelPart(m, d) && KERNEL_BASE <= q < KERNEL_TOP
    ensures HasTable(m, d, q) && PteWord(m, d, q) == KWord(q) && FrameAt(m, d, q) == KFrame(m, q)
  {
    var i := q / 1024;
    assert DirEntry(m, d, i) == Entry(FIRST_TABLE + (i - USER_DIRS), BOOT_FLAGS);
    EntryParts(FIRST_TABLE + (i - USER_DIRS));
  }

  lemma SpacesAgree(L: Layout, m: Memory, dirs: seq<nat>, o: Owners, p: nat, v: nat)
    requires TablesOk(L, m, dirs, o) && p < |dirs| && KERNEL_BASE * 4096 <= v < KERNEL_TOP * 4096
    ensures Walk(m, Dir(m, dirs[p]), v) == Walk(m, BOOT, v)
  {
    var q := v / 4096;
    KernelAgrees(m, BOOT, q);
    KernelAgrees(m, Dir(m, dirs[p]), q);
    WalkIsFrameAt(m, BOOT, q, v % 4096);
    WalkIsFrameAt(m, Dir(m, dirs[p]), q, v % 4096);
  }

  // A managed page: of the kernel, or of process p.
  datatype Place = Kernel(q: nat) | User(p: nat, q: nat)

  predicate Managed(dirs: seq<nat>, x: Place)
  {
    match x case Kernel(q) => KernelPage(q) case User(p, q) => p < |dirs| && UserPage(q)
  }

  function Backing(m: Memory, dirs: seq<nat>, x: Place): Option<nat>
    requires Managed(dirs, x)
  {
    match x case Kernel(q) => KFrame(m, q) case User(p, q) => FrameAt(m, Dir(m, dirs[p]), q)
  }

  // No frame backs two managed pages, in one address space or in two.
  lemma NoSharedFrame(L: Layout, m: Memory, dirs: seq<nat>, o: Owners, x: Place, y: Place)
    requires TablesOk(L, m, dirs, o) && Managed(dirs, x) && Managed(dirs, y)
    requires Backing(m, dirs, x).Some? && Backing(m, dirs, x) == Backing(m, dirs, y)
    ensures x == y
  {
    var f := Backing(m, dirs, x).value;
    match x { case Kernel(q) => assert Owns(o, f, KPage(q)); case User(p, q) => assert Owns(o, f, UPage(p, q)); }
    match y { case Kernel(q) => assert Owns(o, f, KPage(q)); case User(p, q) => assert Owns(o, f, UPage(p, q)); }
  }

  // No page-table frame backs a managed page.
  lemma TablesArePrivate(L: Layout, m: Memory, dirs: seq<nat>, o: Owners, p: nat, i: nat, x: Place)
    requires TablesOk(L, m, dirs, o) && p < |dirs| && UserDir(i) && Present(DirEntry(m, Dir(m, dirs[p]), i))
    requires Managed(dirs, x)
    ensures Backing(m, dirs, x) != Some(FrameOf(DirEntry(m, Dir(m, dirs[p]), i)))
  {
    assert Owns(o, FrameOf(DirEntry(m, Dir(m, dirs[p]), i)), Table(p, i));
    match x {
      case Kernel(q) => assert KFrame(m, q).Some? ==> Owns(o, KFrame(m, q).value, KPage(q));
      case User(r, q) =>
        assert FrameAt(m, Dir(m, dirs[r]), q).Some? ==> Owns(o, FrameAt(m, Dir(m, dirs[r]), q).value, UPage(r, q));
    }
  }

  predicate IsTable(m: Memory, dirs: seq<nat>, f: nat, p: nat, i: nat)
  {
    p < |dirs| && UserDir(i) && Present(DirEntry(m, Dir(m, dirs[p]), i)) && FrameOf(DirEntry(m, Dir(m, dirs[p]), i)) == f
  }

  ghost predicate ServesAsTable(m: Memory, dirs: seq<nat>, f: nat)
  {
    exists p: nat, i: nat :: IsTable(m, dirs, f, p, i)
  }

  predicate IsBacked(m: Memory, dirs: seq<nat>, f: nat, x: Place)
  {
    Managed(dirs, x) && Backing(m, dirs, x) == Some(f)
  }

  ghost predicate Backs(m: Memory, dirs: seq<nat>, f: nat)
  {
    exists x: Place :: IsBacked(m, dirs, f, x)
  }

  // The owned frames are exactly those that back a managed page or serve as a page table.
  lemma OwnedIffUsed(L: Layout, m: Memory, dirs: seq<nat>, o: Owners, f: nat)
    requires TablesOk(L, m, dirs, o)
    ensures f in o <==> Backs(m, dirs, f) || ServesAsTable(m, dirs, f)
  {
    if f in o {
      assert OwnerOk(L, m, dirs, f, o[f]);
      match o[f] {
        case KPage(q) => assert IsBacked(m, dirs, f, Kernel(q));
        case Table(p, i) => assert IsTable(m, dirs, f, p, i);
        case UPage(p, q) => assert IsBacked(m, dirs, f, User(p, q));
      }
    }
    if Backs(m, dirs, f) {
      var x: Place :| IsBacked(m, dirs, f, x);
      match x { case Kernel(q) => assert Owns(o, f, KPage(q)); case User(p, q) => assert Owns(o, f, UPage(p, q)); }
    }
    if ServesAsTable(m, dirs, f) {
      var p: nat, i: nat :| IsTable(m, dirs, f, p, i);
      assert Owns(o, f, Table(p, i));
    }
  }

  // ----- frames that a write leaves alone

  ghost predicate SameFrame(m: Memory, m': Memory, f: nat)
  {
    forall a: nat | f * DIRECTORY <= a < (f + 1) * DIRECTORY :: Load(m', a) == Load(m, a)
  }

  lemma SameKernelPart(m: Memory, m': Memory, d: nat)
    requires SameFrame(m, m', d) && KernelPart(m, d)
    ensures KernelPart(m', d)
  {
    forall i: nat | i < DIRECTORY ensures DirEntry(m', d, i) == DirEntry(m, d, i) { }
  }

  lemma SameFrameAt(m: Memory, m': Memory, d: nat, q: nat)
    requires SameFrame(m, m', d) && q / 1024 < DIRECTORY
    requires HasTable(m, d, q) ==> SameFrame(m, m', FrameOf(Load(m, PdeWord(d, q))))
    ensures FrameAt(m', d, q) == FrameAt(m, d, q) && HasTable(m', d, q) == HasTable(m, d, q)
    ensures HasTable(m, d, q) ==> PteWord(m', d, q) == PteWord(m, d, q)
  {
    assert Load(m', PdeWord(d, q)) == Load(m, PdeWord(d, q));
  }

  lemma WriteElsewhere(m: Memory, a: nat, w: nat, f: nat)
    requires a / DIRECTORY != f
    ensures SameFrame(m, m[a := w], f)
  {
  }

  // Directories and page tables are frames of the pools, distinct from each other.
  lemma DirIsOwned(L: Layout, m: Memory, dirs: seq<nat>, o: Owners, p: nat)
    requires TablesOk(L, m, dirs, o) && p < |dirs|
    ensures Owns(o, Dir(m, dirs[p]), KPage(dirs[p])) && L.KernelFrame(Dir(m, dirs[p]))
  {
    assert KernelPage(dirs[p]) && KFrame(m, dirs[p]).Some?;
    assert OwnerOk(L, m, dirs, Dir(m, dirs[p]), KPage(dirs[p]));
  }

  lemma TableIsOwned(L: Layout, m: Memory, dirs: seq<nat>, o: Owners, p: nat, q: nat)
    requires TablesOk(L, m, dirs, o) && p < |dirs| && UserPage(q) && HasTable(m, Dir(m, dirs[p]), q)
    ensures var t := FrameOf(Load(m, PdeWord(Dir(m, dirs[p]), q)));
            Owns(o, t, Table(p, q / 1024)) && L.KernelFrame(t)
  {
    var i := q / 1024;
    assert DirEntry(m, Dir(m, dirs[p]), i) == Load(m, PdeWord(Dir(m, dirs[p]), q));
    assert UserDir(i);
  }

  // ----- mapping and unmapping a kernel page: one word of the shared tables changes

  // m' differs from m in the translation of kernel page q only.
  ghost predicate OnlyKernelPage(m: Memory, m': Memory, dirs: seq<nat>, q: nat)
  {
    && (forall r: nat | KernelPage(r) && r != q :: KFrame(m', r) == KFrame(m, r))
    && (forall p: nat | p < |dirs| :: Dir(m', dirs[p]) == Dir(m, dirs[p]))
    && (forall p: nat, i: nat | p < |dirs| && i < DIRECTORY :: DirEntry(m', Dir(m, dirs[p]), i) == DirEntry(m, Dir(m, dirs[p]), i))
    && (forall p: nat, u: nat | p < |dirs| && UserPage(u) :: FrameAt(m', Dir(m, dirs[p]), u) == FrameAt(m, Dir(m, dirs[p]), u))
  }

  // The rest of the system sees nothing of a store into a kernel table.
  lemma KernelTableWrite(L: Layout, m: Memory, dirs: seq<nat>, o: Owners, q: nat, e: nat)
    requires TablesOk(L, m, dirs, o) && KernelPage(q) && forall p: nat | p < |dirs| :: dirs[p] != q
    ensures DirsOk(m[KWord(q) := e], dirs) && OnlyKernelPage(m, m[KWord(q) := e], dirs, q)
  {
    var m' := m[KWord(q) := e];
    KernelWriteLow(m, dirs, q, e);
    forall p: nat | p < |dirs|
      ensures && Dir(m', dirs[p]) == Dir(m, dirs[p]) && KFrame(m', dirs[p]).Some? && KernelPart(m', Dir(m, dirs[p]))
              && SameFrame(m, m', Dir(m, dirs[p]))
    {
      KernelWriteDir(L, m, dirs, o, q, e, p);
    }
    forall p: nat, u: nat | p < |dirs| && UserPage(u)
      ensures FrameAt(m', Dir(m, dirs[p]), u) == FrameAt(m, Dir(m, dirs[p]), u)
    {
      KernelWriteUser(L, m, dirs, o, q, e, p, u);
    }
    hide EntriesOk, OwnersOk, KernelPart, FrameAt, KFrame, LowOk;
  }

  lemma KernelWriteLow(m: Memory, dirs: seq<nat>, q: nat, e: nat)
    requires DirsOk(m, dirs) && KernelPage(q)
    ensures LowOk(m[KWord(q) := e]) && KernelPart(m[KWord(q) := e], BOOT)
    ensures forall r: nat | KernelPage(r) && r != q :: KFrame(m[KWord(q) := e], r) == KFrame(m, r)
  {
    var m' := m[KWord(q) := e];
    KernelWordPlace(q);
    forall r: nat | KERNEL_BASE <= r < HEAP_BASE ensures KFrame(m', r) == Some(r - KERNEL_BASE) {
      assert KFrame(m, r) == Some(r - KERNEL_BASE);
    }
    WriteElsewhere(m, KWord(q), e, BOOT);
    SameKernelPart(m, m', BOOT);
  }

  lemma KernelWriteDir(L: Layout, m: Memory, dirs: seq<nat>, o: Owners, q: nat, e: nat, p: nat)
    requires TablesOk(L, m, dirs, o) && KernelPage(q) && p < |dirs| && dirs[p] != q
    ensures var m' := m[KWord(q) := e];
            && Dir(m', dirs[p]) == Dir(m, dirs[p]) && KernelPage(dirs[p]) && KFrame(m', dirs[p]).Some?
            && KernelPart(m', Dir(m, dirs[p])) && SameFrame(m, m', Dir(m, dirs[p]))
  {
    var m' := m[KWord(q) := e];
    KernelWordPlace(q);
    DirIsOwned(L, m, dirs, o, p);
    WriteElsewhere(m, KWord(q), e, Dir(m, dirs[p]));
    SameKernelPart(m, m', Dir(m, dirs[p]));
  }

  lemma KernelWriteUser(L: Layout, m: Memory, dirs: seq<nat>, o: Owners, q: nat, e: nat, p: nat, u: nat)
    requires TablesOk(L, m, dirs, o) && KernelPage(q) && p < |dirs| && dirs[p] != q && UserPage(u)
    ensures FrameAt(m[KWord(q) := e], Dir(m, dirs[p]), u) == FrameAt(m, Dir(m, dirs[p]), u)
  {
    var m', d := m[KWord(q) := e], Dir(m, dirs[p]);
    KernelWordPlace(q);
    KernelWriteDir(L, m, dirs, o, q, e, p);
    if HasTable(m, d, u) {
      TableIsOwned(L, m, dirs, o, p, u);
      WriteElsewhere(m, KWord(q), e, FrameOf(Load(m, PdeWord(d, u))));
    }
    SameFrameAt(m, m', d, u);
  }

  lemma KernelWordPlace(q: nat)
    requires KernelPage(q)
    ensures FIRST_TABLE <= KWord(q) / DIRECTORY < KERNEL_FIRST
  {
  }

  lemma KernelEntries(m: Memory, m': Memory, dirs: seq<nat>, o: Owners, o': Owners, q: nat)
    requires EntriesOk(m, dirs, o) && OnlyKernelPage(m, m', dirs, q) && KernelPage(q)
    requires KFrame(m', q).Some? ==> Owns(o', KFrame(m', q).value, KPage(q))
    requires forall f: nat | f in o && o[f] != KPage(q) :: Owns(o', f, o[f])
    ensures EntriesOk(m', dirs, o')
  {
  }

  lemma KernelOwner(L: Layout, m: Memory, m': Memory, dirs: seq<nat>, q: nat, f: nat, w: Owner)
    requires OwnerOk(L, m, dirs, f, w) && OnlyKernelPage(m, m', dirs, q) && w != KPage(q)
    ensures OwnerOk(L, m', dirs, f, w)
  {
  }

  lemma MapKernelOk(L: Layout, m: Memory, dirs: seq<nat>, o: Owners, q: nat, f: nat)
    requires TablesOk(L, m, dirs, o) && KernelPage(q) && KFrame(m, q) == None && f !in o && L.KernelFrame(f)
    ensures TablesOk(L, m[KWord(q) := Entry(f, C_FLAGS)], dirs, o[f := KPage(q)])
  {
    var m', o' := m[KWord(q) := Entry(f, C_FLAGS)], o[f := KPage(q)];
    KernelTableWrite(L, m, dirs, o, q, Entry(f, C_FLAGS));
    EntryParts(f);
    KernelEntries(m, m', dirs, o, o', q);
    forall g: nat | g in o' ensures OwnerOk(L, m', dirs, g, o'[g]) {
      if g != f {
        assert OwnerOk(L, m, dirs, g, o[g]);
        KernelOwner(L, m, m', dirs, q, g, o[g]);
      }
    }
  }

  lemma UnmapKernelOk(L: Layout, m: Memory, dirs: seq<nat>, o: Owners, q: nat, f: nat)
    requires TablesOk(L, m, dirs, o) && KernelPage(q) && KFrame(m, q) == Some(f)
    requires forall p: nat | p < |dirs| :: dirs[p] != q
    ensures Owns(o, f, KPage(q)) && TablesOk(L, m[KWord(q) := 0], dirs, o - {f})
  {
    var m', o' := m[KWord(q) := 0], o - {f};
    KernelTableWrite(L, m, dirs, o, q, 0);
    KernelEntries(m, m', dirs, o, o', q);
    forall g: nat | g in o' ensures OwnerOk(L, m', dirs, g, o'[g]) {
      assert OwnerOk(L, m, dirs, g, o[g]);
      KernelOwner(L, m, m', dirs, q, g, o[g]);
    }
  }

  // ----- a process's own tables

  // m' differs from m in entry i of directory p, in the translations behind it, and not elsewhere.
  ghost predicate OnlyUserEntry(m: Memory, m': Memory, dirs: seq<nat>, p: nat, i: nat)
  {
    && (forall r: nat | KernelPage(r) :: KFrame(m', r) == KFrame(m, r))
    && (forall r: nat | r < |dirs| :: Dir(m', dirs[r]) == Dir(m, dirs[r]))
    && (forall r: nat, j: nat | r < |dirs| && UserDir(j) && !(r == p && j == i) ::
          DirEntry(m', Dir(m, dirs[r]), j) == DirEntry(m, Dir(m, dirs[r]), j))
    && (forall r: nat, u: nat | r < |dirs| && UserPage(u) && !(r == p && u / 1024 == i) ::
          FrameAt(m', Dir(m, dirs[r]), u) == FrameAt(m, Dir(m, dirs[r]), u))
  }

  // The boot frames hold all kernel entries.
  lemma BootFramesSame(m: Memory, m': Memory, dirs: seq<nat>)
    requires forall f: nat | BOOT <= f < KERNEL_FIRST :: SameFrame(m, m', f)
    ensures forall r: nat | KernelPage(r) :: KFrame(m', r) == KFrame(m, r)
    ensures forall r: nat | r < |dirs| :: Dir(m', dirs[r]) == Dir(m, dirs[r])
    ensures KernelPart(m, BOOT) ==> KernelPart(m', BOOT)
    ensures LowOk(m) ==> LowOk(m')
  {
    forall r: nat | KERNEL_BASE <= r < KERNEL_TOP ensures Load(m', KWord(r)) == Load(m, KWord(r)) {
      assert SameFrame(m, m', KWord(r) / DIRECTORY);
    }
    assert SameFrame(m, m', BOOT);
    if KernelPart(m, BOOT) { SameKernelPart(m, m', BOOT); }
    forall r: nat | LowOk(m) && KERNEL_BASE <= r < HEAP_BASE ensures KFrame(m', r) == Some(r - KERNEL_BASE) {
      assert KFrame(m, r) == Some(r - KERNEL_BASE);
    }
  }

  // Page u of process r, when neither its directory entry nor its table is written.
  lemma SameThroughEntry(m: Memory, m': Memory, d: nat, u: nat)
    requires DirEntry(m', d, u / 1024) == DirEntry(m, d, u / 1024)
    requires HasTable(m, d, u) ==> SameFrame(m, m', FrameOf(Load(m, PdeWord(d, u))))
    ensures FrameAt(m', d, u) == FrameAt(m, d, u)
  {
    assert Load(m', PdeWord(d, u)) == Load(m, PdeWord(d, u));
  }

  // A write outside the boot structures, the other directories and the tables of other entries.
  ghost predicate Private(m: Memory, m': Memory, dirs: seq<nat>, o: Owners, p: nat, i: nat)
    requires p < |dirs|
  {
    && (forall f: nat | BOOT <= f < KERNEL_FIRST :: SameFrame(m, m', f))
    && (forall f: nat | f in o && o[f] != KPage(dirs[p]) && o[f] != Table(p, i) :: SameFrame(m, m', f))
    && (forall j: nat | j < DIRECTORY && j != i :: DirEntry(m', Dir(m, dirs[p]), j) == DirEntry(m, Dir(m, dirs[p]), j))
  }

  lemma PrivateDirs(L: Layout, m: Memory, m': Memory, dirs: seq<nat>, o: Owners, p: nat, i: nat)
    requires TablesOk(L, m, dirs, o) && p < |dirs| && UserDir(i) && Private(m, m', dirs, o, p, i)
    ensures DirsOk(m', dirs)
    ensures forall r: nat | r < |dirs| && r != p :: SameFrame(m, m', Dir(m, dirs[r]))
  {
    BootFramesSame(m, m', dirs);
    forall r: nat | r < |dirs| && r != p ensures SameFrame(m, m', Dir(m, dirs[r])) && KernelPart(m', Dir(m, dirs[r])) {
      DirIsOwned(L, m, dirs, o, r);
      SameKernelPart(m, m', Dir(m, dirs[r]));
    }
    assert KernelPart(m, Dir(m, dirs[p])) && KernelPart(m', Dir(m, dirs[p]));
  }

  lemma PrivateWrite(L: Layout, m: Memory, m': Memory, dirs: seq<nat>, o: Owners, p: nat, i: nat)
    requires TablesOk(L, m, dirs, o) && p < |dirs| && UserDir(i) && Private(m, m', dirs, o, p, i)
    ensures DirsOk(m', dirs) && OnlyUserEntry(m, m', dirs, p, i)
  {
    BootFramesSame(m, m', dirs);
    PrivateDirs(L, m, m', dirs, o, p, i);
    forall r: nat, j: nat | r < |dirs| && UserDir(j) && !(r == p && j == i)
      ensures DirEntry(m', Dir(m, dirs[r]), j) == DirEntry(m, Dir(m, dirs[r]), j)
    {
      if r != p { assert SameFrame(m, m', Dir(m, dirs[r])); }
    }
    forall r: nat, u: nat | r < |dirs| && UserPage(u) && !(r == p && u / 1024 == i)
      ensures FrameAt(m', Dir(m, dirs[r]), u) == FrameAt(m, Dir(m, dirs[r]), u)
    {
      if HasTable(m, Dir(m, dirs[r]), u) { TableIsOwned(L, m, dirs, o, r, u); }
      SameThroughEntry(m, m', Dir(m, dirs[r]), u);
    }
  }

  // The owner concerns entry i of process p.
  predicate Behind(w: Owner, p: nat, i: nat)
  {
    match w case KPage(_) => false case Table(r, j) => r == p && j == i case UPage(r, u) => r == p && u / 1024 == i
  }

  lemma UserEntries(m: Memory, m': Memory, dirs: seq<nat>, o: Owners, o': Owners, p: nat, i: nat)
    requires EntriesOk(m, dirs, o) && OnlyUserEntry(m, m', dirs, p, i) && p < |dirs| && UserDir(i)
    requires Present(DirEntry(m', Dir(m, dirs[p]), i)) ==> Owns(o', FrameOf(DirEntry(m', Dir(m, dirs[p]), i)), Table(p, i))
    requires forall u: nat | UserPage(u) && u / 1024 == i && FrameAt(m', Dir(m, dirs[p]), u).Some? ::
               Owns(o', FrameAt(m', Dir(m, dirs[p]), u).value, UPage(p, u))
    requires forall f: nat | f in o && !Behind(o[f], p, i) :: Owns(o', f, o[f])
    ensures EntriesOk(m', dirs, o')
  {
  }

  lemma UserOwner(L: Layout, m: Memory, m': Memory, dirs: seq<nat>, p: nat, i: nat, f: nat, w: Owner)
    requires OwnerOk(L, m, dirs, f, w) && OnlyUserEntry(m, m', dirs, p, i) && !Behind(w, p, i)
    ensures OwnerOk(L, m', dirs, f, w)
  {
  }

  // A new, empty page table for entry q / 1024 of process p's directory.
  lemma AddTableOk(L: Layout, m: Memory, dirs: seq<nat>, o: Owners, p: nat, q: nat, t: nat)
    requires TablesOk(L, m, dirs, o) && p < |dirs| && UserPage(q) && !HasTable(m, Dir(m, dirs[p]), q)
    requires t !in o && L.KernelFrame(t)
    ensures TablesOk(L, AddTable(m, Dir(m, dirs[p]), q, t), dirs, o[t := Table(p, q / 1024)])
    ensures var m' := AddTable(m, Dir(m, dirs[p]), q, t);
            && OnlyUserEntry(m, m', dirs, p, q / 1024) && HasTable(m', Dir(m, dirs[p]), q)
            && forall u: nat | UserPage(u) :: FrameAt(m', Dir(m, dirs[p]), u) == FrameAt(m, Dir(m, dirs[p]), u)
  {
    var d, i := Dir(m, dirs[p]), q / 1024;
    var m', o' := AddTable(m, d, q, t), o[t := Table(p, i)];
    DirIsOwned(L, m, dirs, o, p);
    AddTablePrivate(L, m, dirs, o, p, q, t);
    PrivateWrite(L, m, m', dirs, o, p, i);
    AddTableSees(m, d, q, t);
    forall f: nat | f in o ensures !Behind(o[f], p, i) {
      assert OwnerOk(L, m, dirs, f, o[f]);
      NoTableNoOwner(L, m, dirs, p, q, f, o[f]);
    }
    UserEntries(m, m', dirs, o, o', p, i);
    forall g: nat | g in o' ensures OwnerOk(L, m', dirs, g, o'[g]) {
      if g != t {
        assert OwnerOk(L, m, dirs, g, o[g]);
        UserOwner(L, m, m', dirs, p, i, g, o[g]);
      }
    }
  }

  lemma AddTablePrivate(L: Layout, m: Memory, dirs: seq<nat>, o: Owners, p: nat, q: nat, t: nat)
    requires p < |dirs| && UserPage(q) && t !in o && L.KernelFrame(t)
    requires Owns(o, Dir(m, dirs[p]), KPage(dirs[p])) && L.KernelFrame(Dir(m, dirs[p]))
    ensures Private(m, AddTable(m, Dir(m, dirs[p]), q, t), dirs, o, p, q / 1024)
  {
    AddTableLoads(m, Dir(m, dirs[p]), q, t);
  }

  lemma AddTableSees(m: Memory, d: nat, q: nat, t: nat)
    requires UserPage(q) && t != d && !HasTable(m, d, q)
    ensures var m' := AddTable(m, d, q, t);
            && Present(DirEntry(m', d, q / 1024)) && FrameOf(DirEntry(m', d, q / 1024)) == t && HasTable(m', d, q)
            && forall u: nat | u / 1024 == q / 1024 :: FrameAt(m', d, u) == None && FrameAt(m, d, u) == None
  {
    var m' := AddTable(m, d, q, t);
    AddTableLoads(m, d, q, t);
    EntryParts(t);
    assert DirEntry(m', d, q / 1024) == Load(m', PdeWord(d, q));
    forall u: nat | u / 1024 == q / 1024 ensures FrameAt(m', d, u) == None && FrameAt(m, d, u) == None {
      assert PdeWord(d, u) == PdeWord(d, q) && PteWord(m', d, u) == t * DIRECTORY + u % 1024;
      assert Load(m', PteWord(m', d, u)) == 0;
    }
  }

  lemma NoTableNoOwner(L: Layout, m: Memory, dirs: seq<nat>, p: nat, q: nat, f: nat, w: Owner)
    requires p < |dirs| && UserPage(q) && !HasTable(m, Dir(m, dirs[p]), q) && OwnerOk(L, m, dirs, f, w)
    ensures !Behind(w, p, q / 1024)
  {
    var d := Dir(m, dirs[p]);
    assert DirEntry(m, d, q / 1024) == Load(m, PdeWord(d, q));
    if w.UPage? && w.q / 1024 == q / 1024 { assert PdeWord(d, w.q) == PdeWord(d, q); }
  }

  // One word of an existing table of process p changes.
  lemma UserTableWrite(L: Layout, m: Memory, dirs: seq<nat>, o: Owners, p: nat, q: nat, e: nat)
    requires TablesOk(L, m, dirs, o) && p < |dirs| && UserPage(q) && HasTable(m, Dir(m, dirs[p]), q)
    ensures var d, m' := Dir(m, dirs[p]), SetPte(m, Dir(m, dirs[p]), q, e);
            && DirsOk(m', dirs) && OnlyUserEntry(m, m', dirs, p, q / 1024)
            && DirEntry(m', d, q / 1024) == DirEntry(m, d, q / 1024) && HasTable(m', d, q)
            && FrameAt(m', d, q) == (if Present(e) then Some(FrameOf(e)) else None)
            && forall u: nat | UserPage(u) && u != q :: FrameAt(m', d, u) == FrameAt(m, d, u)
  {
    var d, m' := Dir(m, dirs[p]), SetPte(m, Dir(m, dirs[p]), q, e);
    DirIsOwned(L, m, dirs, o, p);
    TableIsOwned(L, m, dirs, o, p, q);
    SetPtePrivate(L, m, dirs, o, p, q, e);
    PrivateWrite(L, m, m', dirs, o, p, q / 1024);
    SetPteSees(m, d, q, e);
  }

  lemma SetPtePrivate(L: Layout, m: Memory, dirs: seq<nat>, o: Owners, p: nat, q: nat, e: nat)
    requires p < |dirs| && UserPage(q) && HasTable(m, Dir(m, dirs[p]), q)
    requires Owns(o, Dir(m, dirs[p]), KPage(dirs[p]))
    requires var t := FrameOf(Load(m, PdeWord(Dir(m, dirs[p]), q)));
             Owns(o, t, Table(p, q / 1024)) && L.KernelFrame(t)
    ensures Private(m, SetPte(m, Dir(m, dirs[p]), q, e), dirs, o, p, q / 1024)
  {
    var t := FrameOf(Load(m, PdeWord(Dir(m, dirs[p]), q)));
    assert PteWord(m, Dir(m, dirs[p]), q) / DIRECTORY == t;
  }

  lemma SetPteSees(m: Memory, d: nat, q: nat, e: nat)
    requires UserPage(q) && HasTable(m, d, q) && FrameOf(Load(m, PdeWord(d, q))) != d
    ensures var m' := SetPte(m, d, q, e);
            && DirEntry(m', d, q / 1024) == DirEntry(m, d, q / 1024) && HasTable(m', d, q)
            && FrameAt(m', d, q) == (if Present(e) then Some(FrameOf(e)) else None)
            && forall u: nat | u / 1024 == q / 1024 && u != q :: FrameAt(m', d, u) == FrameAt(m, d, u)
  {
    var m' := SetPte(m, d, q, e);
    SetPteLoads(m, d, q, e);
    assert DirEntry(m', d, q / 1024) == Load(m', PdeWord(d, q));
    forall u: nat | u != q && u / 1024 == q / 1024 ensures FrameAt(m', d, u) == FrameAt(m, d, u) {
      assert PdeWord(d, u) == PdeWord(d, q) && PteWord(m, d, u) != PteWord(m, d, q);
    }
  }

  lemma MapUserOk(L: Layout, m: Memory, dirs: seq<nat>, o: Owners, p: nat, q: nat, f: nat)
    requires TablesOk(L, m, dirs, o) && p < |dirs| && UserPage(q) && HasTable(m, Dir(m, dirs[p]), q)
    requires FrameAt(m, Dir(m, dirs[p]), q) == None && f !in o && L.UserFrame(f)
    ensures TablesOk(L, SetPte(m, Dir(m, dirs[p]), q, Entry(f, C_FLAGS)), dirs, o[f := UPage(p, q)])
  {
    var d := Dir(m, dirs[p]);
    var m', o' := SetPte(m, d, q, Entry(f, C_FLAGS)), o[f := UPage(p, q)];
    EntryParts(f);
    UserTableWrite(L, m, dirs, o, p, q, Entry(f, C_FLAGS));
    UserEdit(L, m, m', dirs, o, o', p, q);
  }

  lemma UnmapUserOk(L: Layout, m: Memory, dirs: seq<nat>, o: Owners, p: nat, q: nat, f: nat)
    requires TablesOk(L, m, dirs, o) && p < |dirs| && UserPage(q) && FrameAt(m, Dir(m, dirs[p]), q) == Some(f)
    ensures Owns(o, f, UPage(p, q)) && TablesOk(L, SetPte(m, Dir(m, dirs[p]), q, 0), dirs, o - {f})
  {
    var d := Dir(m, dirs[p]);
    var m', o' := SetPte(m, d, q, 0), o - {f};
    assert Owns(o, f, UPage(p, q));
    UserTableWrite(L, m, dirs, o, p, q, 0);
    UserEdit(L, m, m', dirs, o, o', p, q);
  }

  // A change of page q's entry alone, with the owners adjusted for that page.
  lemma UserEdit(L: Layout, m: Memory, m': Memory, dirs: seq<nat>, o: Owners, o': Owners, p: nat, q: nat)
    requires EntriesOk(m, dirs, o) && OwnersOk(L, m, dirs, o) && p < |dirs| && UserPage(q)
    requires DirsOk(m', dirs) && OnlyUserEntry(m, m', dirs, p, q / 1024)
    requires DirEntry(m', Dir(m, dirs[p]), q / 1024) == DirEntry(m, Dir(m, dirs[p]), q / 1024)
    requires forall u: nat | UserPage(u) && u != q :: FrameAt(m', Dir(m, dirs[p]), u) == FrameAt(m, Dir(m, dirs[p]), u)
    requires FrameAt(m', Dir(m, dirs[p]), q).Some? ==> Owns(o', FrameAt(m', Dir(m, dirs[p]), q).value, UPage(p, q))
    requires forall f: nat | f in o && o[f] != UPage(p, q) :: Owns(o', f, o[f])
    requires forall f: nat | f in o' :: if o'[f] == UPage(p, q) then FrameAt(m', Dir(m, dirs[p]), q) == Some(f) && L.UserFrame(f)
                                        else Owns(o, f, o'[f])
    ensures TablesOk(L, m', dirs, o')
  {
    UserEntries(m, m', dirs, o, o', p, q / 1024);
    hide EntriesOk, DirsOk;
    forall f: nat | f in o' ensures OwnerOk(L, m', dirs, f, o'[f]) {
      if o'[f] != UPage(p, q) {
        assert OwnerOk(L, m, dirs, f, o[f]);
        if !Behind(o[f], p, q / 1024) { UserOwner(L, m, m', dirs, p, q / 1024, f, o[f]); }
      }
    }
  }

  // ----- a new directory

  // process.c:48-54: n entries from `first` on, copied from directory src to directory d.
  function Copied(m: Memory, src: nat, d: nat, first: nat, n: nat): (m': Memory)
    requires src != d && first + n <= DIRECTORY
    ensures forall i: nat | first <= i < first + n :: DirEntry(m', d, i) == DirEntry(m, src, i)
    ensures forall a: nat | !(d * DIRECTORY + first <= a < d * DIRECTORY + first + n) :: Load(m', a) == Load(m, a)
  {
    if n == 0 then m
    else
      var k := first + n - 1;
      Copied(m, src, d, first, n - 1)[d * DIRECTORY + k := DirEntry(m, src, k)]
  }

  // process.c:41-58 on the frame d of a fresh kernel page, with src the current directory.
  function NewDirectory(m: Memory, src: nat, d: nat): Memory
    requires src != d
  {
    var cleared := m + Zeros(d * DIRECTORY, DIRECTORY);
    var high := Copied(cleared, src, d, USER_DIRS, DIRECTORY - USER_DIRS);
    var low := high[d * DIRECTORY := DirEntry(high, src, 0)];
    low[d * DIRECTORY + WINDOW := Entry(d, BOOT_FLAGS)]
  }

  lemma NewDirectoryIs(m: Memory, src: nat, d: nat)
    requires src != d && KernelPart(m, src)
    ensures var m' := NewDirectory(m, src, d);
            && KernelPart(m', d) && (forall i: nat | UserDir(i) :: DirEntry(m', d, i) == 0)
            && forall f: nat | f != d :: SameFrame(m, m', f)
  {
    var cleared := m + Zeros(d * DIRECTORY, DIRECTORY);
    var high := Copied(cleared, src, d, USER_DIRS, DIRECTORY - USER_DIRS);
    var m' := NewDirectory(m, src, d);
    forall f: nat | f != d ensures SameFrame(m, m', f) {
      forall a: nat | f * DIRECTORY <= a < (f + 1) * DIRECTORY ensures Load(m', a) == Load(m, a) {
        assert Load(cleared, a) == Load(m, a) && Load(high, a) == Load(cleared, a);
      }
    }
    assert SameFrame(m, m', src);
    forall i: nat | i < DIRECTORY ensures DirEntry(cleared, src, i) == DirEntry(m, src, i) && DirEntry(high, src, i) == DirEntry(m, src, i) { }
    forall i: nat | USER_DIRS <= i < WINDOW ensures DirEntry(m', d, i) == DirEntry(m, src, i) {
      assert DirEntry(high, d, i) == DirEntry(cleared, src, i);
    }
    forall i: nat | UserDir(i) ensures DirEntry(m', d, i) == 0 {
      assert Load(cleared, d * DIRECTORY + i) == 0 && Load(high, d * DIRECTORY + i) == 0;
    }
  }

  // A process created through kernel page q: its directory shares the kernel, and maps nothing else.
  lemma NewDirectoryOk(L: Layout, m: Memory, dirs: seq<nat>, o: Owners, src: nat, q: nat)
    requires TablesOk(L, m, dirs, o) && KernelPage(q) && KFrame(m, q).Some?
    requires forall p: nat | p < |dirs| :: dirs[p] != q
    requires KernelPart(m, src) && src != KFrame(m, q).value
    ensures TablesOk(L, NewDirectory(m, src, KFrame(m, q).value), dirs + [q], o)
    ensures var m' := NewDirectory(m, src, KFrame(m, q).value);
            && (forall r: nat | KernelPage(r) :: KFrame(m', r) == KFrame(m, r))
            && (forall p: nat | p < |dirs| :: Dir(m', dirs[p]) == Dir(m, dirs[p]))
            && (forall p: nat, u: nat | p < |dirs| && UserPage(u) :: FrameAt(m', Dir(m, dirs[p]), u) == FrameAt(m, Dir(m, dirs[p]), u))
            && (forall u: nat | UserPage(u) :: FrameAt(m', KFrame(m, q).value, u) == None)
  {
    var d := KFrame(m, q).value;
    var m', ds := NewDirectory(m, src, d), dirs + [q];
    assert Owns(o, d, KPage(q)) && OwnerOk(L, m, dirs, d, KPage(q));
    NewDirectoryIs(m, src, d);
    BootFramesSame(m, m', ds);
    DataWrite(L, m, m', dirs, o, Kernel(q));
    NewcomerEmpty(m', d);
    NewcomerEntries(m, m', dirs, o, q);
    assert DirsOk(m', ds);
    hide EntriesOk, DirsOk, NewDirectory;
    forall g: nat | g in o ensures OwnerOk(L, m', ds, g, o[g]) {
      assert OwnerOk(L, m, dirs, g, o[g]);
      SameOwner(L, m, m', dirs, g, o[g], q);
    }
  }

  // A directory without user entries adds nothing that needs an owner.
  lemma NewcomerEntries(m: Memory, m': Memory, dirs: seq<nat>, o: Owners, q: nat)
    requires EntriesOk(m, dirs, o) && SameTranslations(m, m', dirs)
    requires forall i: nat | UserDir(i) :: DirEntry(m', Dir(m', q), i) == 0
    requires forall u: nat | UserPage(u) :: FrameAt(m', Dir(m', q), u) == None
    ensures EntriesOk(m', dirs + [q], o)
  {
    var ds := dirs + [q];
    forall p: nat, i: nat | p < |ds| && UserDir(i) && Present(DirEntry(m', Dir(m', ds[p]), i))
      ensures Owns(o, FrameOf(DirEntry(m', Dir(m', ds[p]), i)), Table(p, i)) { assert p < |dirs|; }
    forall p: nat, u: nat | p < |ds| && UserPage(u) && FrameAt(m', Dir(m', ds[p]), u).Some?
      ensures Owns(o, FrameAt(m', Dir(m', ds[p]), u).value, UPage(p, u)) { assert p < |dirs|; }
  }

  lemma NewcomerEmpty(m: Memory, d: nat)
    requires forall i: nat | UserDir(i) :: DirEntry(m, d, i) == 0
    ensures forall u: nat | UserPage(u) :: FrameAt(m, d, u) == None
  {
    forall u: nat | UserPage(u) ensures FrameAt(m, d, u) == None {
      assert DirEntry(m, d, u / 1024) == Load(m, PdeWord(d, u));
    }
  }

  // m' translates everything as m does.
  ghost predicate SameTranslations(m: Memory, m': Memory, dirs: seq<nat>)
  {
    && (forall r: nat | KernelPage(r) :: KFrame(m', r) == KFrame(m, r))
    && (forall p: nat | p < |dirs| :: Dir(m', dirs[p]) == Dir(m, dirs[p]))
    && (forall p: nat, i: nat | p < |dirs| && i < DIRECTORY :: DirEntry(m', Dir(m, dirs[p]), i) == DirEntry(m, Dir(m, dirs[p]), i))
    && (forall p: nat, u: nat | p < |dirs| && UserPage(u) :: FrameAt(m', Dir(m, dirs[p]), u) == FrameAt(m, Dir(m, dirs[p]), u))
  }

  lemma SameOwner(L: Layout, m: Memory, m': Memory, dirs: seq<nat>, f: nat, w: Owner, q: nat)
    requires OwnerOk(L, m, dirs, f, w) && SameTranslations(m, m', dirs)
    ensures OwnerOk(L, m', dirs, f, w) && OwnerOk(L, m', dirs + [q], f, w)
  {
  }

  // Writing the contents of a managed page that is no directory changes no translation.
  lemma DataWrite(L: Layout, m: Memory, m': Memory, dirs: seq<nat>, o: Owners, x: Place)
    requires TablesOk(L, m, dirs, o) && Managed(dirs, x) && Backing(m, dirs, x).Some?
    requires x.Kernel? ==> forall p: nat | p < |dirs| :: dirs[p] != x.q
    requires forall f: nat | f != Backing(m, dirs, x).value :: SameFrame(m, m', f)
    ensures SameTranslations(m, m', dirs) && DirsOk(m', dirs)
  {
    var d := Backing(m, dirs, x).value;
    var w := if x.Kernel? then KPage(x.q) else UPage(x.p, x.q);
    assert Owns(o, d, w) && OwnerOk(L, m, dirs, d, w);
    BootFramesSame(m, m', dirs);
    forall p: nat | p < |dirs| ensures SameFrame(m, m', Dir(m, dirs[p])) && KernelPart(m', Dir(m, dirs[p])) {
      DirIsOwned(L, m, dirs, o, p);
      SameKernelPart(m, m', Dir(m, dirs[p]));
    }
    forall p: nat, u: nat | p < |dirs| && UserPage(u)
      ensures FrameAt(m', Dir(m, dirs[p]), u) == FrameAt(m, Dir(m, dirs[p]), u)
    {
      assert SameFrame(m, m', Dir(m, dirs[p]));
      if HasTable(m, Dir(m, dirs[p]), u) { TableIsOwned(L, m, dirs, o, p, u); }
      SameFrameAt(m, m', Dir(m, dirs[p]), u);
    }
  }
}
