// Two-level page tables edited through a recursive self-map
// (source/kernel/memory.c:19-20, 78-90, 127-162, 372-376; source/boot/loader.S:136-181).
// Masks and shifts by powers of two are written with / and %; an aligned address or'ed with flag
// bits is a sum. Physical memory is addressed by word: frame * 1024 + index.
module Paging {
  import opened Basics

  const DIRECTORY := 1024              // entries in a directory or table
  const SPACE := 0x1_0000_0000         // bytes of virtual address space
  const WINDOW := 1023                 // directory entry of the self-map, from 0xFFC00000

  const C_FLAGS := 7                   // PAGE_P_1 | PAGE_US_U | PAGE_RW_RW (memory.h)
  const BOOT_FLAGS := 111              // 100 | 10 | 1, decimal in boot.inc and global.h

  function Entry(frame: nat, flags: nat): nat { frame * 4096 + flags }
  predicate Present(e: nat) { e % 2 == 1 }
  function FrameOf(e: nat): nat { e / 4096 }

  function DirIndex(v: nat): nat { v / 0x400000 }
  function TableIndex(v: nat): nat { v / 4096 % 1024 }

  // The hardware walk of section 4.3 of the Intel SDM, volume 3A: 4-KByte pages, 32-bit paging.
  // None is a page fault; otherwise a physical byte address.
  function Walk(m: Memory, dir: nat, v: nat): Option<nat>
  {
    var pde := Load(m, dir * DIRECTORY + DirIndex(v));
    if !Present(pde) then None
    else
      var pte := Load(m, FrameOf(pde) * DIRECTORY + TableIndex(v));
      if !Present(pte) then None else Some(FrameOf(pte) * 4096 + v % 4096)
  }

  // memory.c:78-90
  function GetPTEPointer(v: nat): nat
  {
    0xFFC00000 + DirIndex(v) * 4096 + TableIndex(v) * 4
  }

  function GetPDEPointer(v: nat): nat
  {
    0xFFFFF000 + DirIndex(v) * 4
  }

  // The last directory entry leads back to the directory.
  predicate SelfMapped(m: Memory, dir: nat)
  {
    var e := Load(m, dir * DIRECTORY + WINDOW);
    Present(e) && FrameOf(e) == dir
  }

  // For every address, its PTE pointer walks to exactly its table entry ...
  lemma PtePointerWalk(m: Memory, dir: nat, v: nat)
    requires v < SPACE && SelfMapped(m, dir) && Present(Load(m, dir * DIRECTORY + DirIndex(v)))
    ensures GetPTEPointer(v) < SPACE
    ensures Walk(m, dir, GetPTEPointer(v)) ==
            Some(4 * (FrameOf(Load(m, dir * DIRECTORY + DirIndex(v))) * DIRECTORY + TableIndex(v)))
  {
    var p := GetPTEPointer(v);
    assert DirIndex(p) == WINDOW && TableIndex(p) == DirIndex(v) && p % 4096 == TableIndex(v) * 4;
  }

  // ... and its PDE pointer to exactly its directory entry.
  lemma PdePointerWalk(m: Memory, dir: nat, v: nat)
    requires v < SPACE && SelfMapped(m, dir)
    ensures GetPDEPointer(v) < SPACE
    ensures Walk(m, dir, GetPDEPointer(v)) == Some(4 * (dir * DIRECTORY + DirIndex(v)))
  {
    var p := GetPDEPointer(v);
    assert DirIndex(p) == WINDOW && TableIndex(p) == WINDOW && p % 4096 == DirIndex(v) * 4;
  }

  // Word accesses at a virtual address; None is a page fault.
  function VLoad(m: Memory, dir: nat, v: nat): Option<nat>
  {
    match Walk(m, dir, v) case None => None case Some(a) => Some(Load(m, a / 4))
  }

  function VStore(m: Memory, dir: nat, v: nat, w: nat): Option<Memory>
  {
    match Walk(m, dir, v) case None => None case Some(a) => Some(m[a / 4 := w])
  }

  // memset of the page at v
  function VClear(m: Memory, dir: nat, v: nat): Option<Memory>
  {
    match Walk(m, dir, v - v % 4096) case None => None case Some(a) => Some(m + Zeros(a / 4, DIRECTORY))
  }

  // Halted: a failed ASSERT. Fault: a page fault inside the kernel.
  datatype Result = Done(m: Memory) | Halted | Fault

  // memory.c:127-153; `table` is what GetOnePhysicPage would return if asked, None if it halts.
  function PageMapping(m: Memory, dir: nat, v: nat, frame: nat, table: Option<nat>): Result
  {
    match VLoad(m, dir, GetPDEPointer(v))
    case None => Fault
    case Some(pde) =>
      if Present(pde) then
        match VLoad(m, dir, GetPTEPointer(v))
        case None => Fault
        case Some(pte) => if Present(pte) then Halted else Stored(VStore(m, dir, GetPTEPointer(v), Entry(frame, C_FLAGS)))
      else
        match table
        case None => Halted
        case Some(t) => NewTable(m, dir, v, frame, t)
  }

  // memory.c:132: PageMapping takes the branch that asks for a page-table frame.
  predicate NeedsTable(m: Memory, dir: nat, v: nat)
  {
    match VLoad(m, dir, GetPDEPointer(v)) case None => false case Some(pde) => !Present(pde)
  }

  function Stored(r: Option<Memory>): Result
  {
    match r case None => Fault case Some(m) => Done(m)
  }

  // memory.c:148-151
  function NewTable(m: Memory, dir: nat, v: nat, frame: nat, t: nat): Result
  {
    match VStore(m, dir, GetPDEPointer(v), Entry(t, C_FLAGS))
    case None => Fault
    case Some(m1) =>
      match VClear(m1, dir, GetPTEPointer(v))
      case None => Fault
      case Some(m2) => Stored(VStore(m2, dir, GetPTEPointer(v), Entry(frame, C_FLAGS)))
  }

  // memory.c:372-376
  function VirtualAddrToPhysicAddr(m: Memory, dir: nat, v: nat): Option<nat>
  {
    match VLoad(m, dir, GetPTEPointer(v)) case None => None case Some(pte) => Some(FrameOf(pte) * 4096 + v % 4096)
  }

  // memory.c:156-162: the entry is and'ed with 0.
  function PageUnmapping(m: Memory, dir: nat, v: nat): Result
  {
    match VLoad(m, dir, GetPTEPointer(v)) case None => Fault case Some(_) => Stored(VStore(m, dir, GetPTEPointer(v), 0))
  }

  // ----- the same on physical words, by page number q

  function PdeWord(dir: nat, q: nat): nat { dir * DIRECTORY + q / 1024 }

  // Meaningful when the directory entry is present.
  function PteWord(m: Memory, dir: nat, q: nat): nat
  {
    FrameOf(Load(m, PdeWord(dir, q))) * DIRECTORY + q % 1024
  }

  predicate HasTable(m: Memory, dir: nat, q: nat) { Present(Load(m, PdeWord(dir, q))) }

  // The page's translation.
  function FrameAt(m: Memory, dir: nat, q: nat): Option<nat>
  {
    if HasTable(m, dir, q) && Present(Load(m, PteWord(m, dir, q))) then Some(FrameOf(Load(m, PteWord(m, dir, q)))) else None
  }

  lemma WalkIsFrameAt(m: Memory, dir: nat, q: nat, offset: nat)
    requires offset < 4096
    ensures Walk(m, dir, q * 4096 + offset) ==
            match FrameAt(m, dir, q) { case None => None case Some(f) => Some(f * 4096 + offset) }
  {
    assert DirIndex(q * 4096 + offset) == q / 1024 && TableIndex(q * 4096 + offset) == q % 1024;
  }

  function AddTable(m: Memory, dir: nat, q: nat, t: nat): Memory
  {
    m[PdeWord(dir, q) := Entry(t, C_FLAGS)] + Zeros(t * DIRECTORY, DIRECTORY)
  }

  function SetPte(m: Memory, dir: nat, q: nat, e: nat): Memory
  {
    m[PteWord(m, dir, q) := e]
  }

  // PageMapping through the window is these stores, for every page below the window.
  lemma PageMappingIs(m: Memory, dir: nat, q: nat, frame: nat, table: Option<nat>)
    requires SelfMapped(m, dir) && q / 1024 < WINDOW && (table.Some? ==> table.value != dir)
    ensures PageMapping(m, dir, q * 4096, frame, table) ==
            if HasTable(m, dir, q) then
              if Present(Load(m, PteWord(m, dir, q))) then Halted else Done(SetPte(m, dir, q, Entry(frame, C_FLAGS)))
            else if table == None then Halted
            else Done(SetPte(AddTable(m, dir, q, table.value), dir, q, Entry(frame, C_FLAGS)))
  {
    var v := q * 4096;
    assert DirIndex(v) == q / 1024 && TableIndex(v) == q % 1024;
    PdePointerWalk(m, dir, v);
    if HasTable(m, dir, q) {
      PtePointerWalk(m, dir, v);
    } else if table.Some? {
      NewTableIs(m, dir, q, frame, table.value);
    }
  }

  lemma NeedsTableIs(m: Memory, dir: nat, q: nat)
    requires SelfMapped(m, dir) && q / 1024 < DIRECTORY
    ensures NeedsTable(m, dir, q * 4096) <==> !HasTable(m, dir, q)
  {
    PdePointerWalk(m, dir, q * 4096);
    PageIndices(q, 0);
  }

  lemma NewTableIs(m: Memory, dir: nat, q: nat, frame: nat, t: nat)
    requires SelfMapped(m, dir) && q / 1024 < WINDOW && t != dir
    ensures NewTable(m, dir, q * 4096, frame, t) == Done(SetPte(AddTable(m, dir, q, t), dir, q, Entry(frame, C_FLAGS)))
  {
    var m1 := m[PdeWord(dir, q) := Entry(t, C_FLAGS)];
    StorePde(m, dir, q, Entry(t, C_FLAGS));
    ClearTable(m1, dir, q, t);
    var m2 := m1 + Zeros(t * DIRECTORY, DIRECTORY);
    assert m2 == AddTable(m, dir, q, t);
    AddTableLoads(m, dir, q, t);
    StorePte(m2, dir, q, Entry(frame, C_FLAGS));
  }

  // A store through the PDE pointer, and one through the PTE pointer.
  lemma StorePde(m: Memory, dir: nat, q: nat, e: nat)
    requires SelfMapped(m, dir) && q / 1024 < WINDOW
    ensures VStore(m, dir, GetPDEPointer(q * 4096), e) == Some(m[PdeWord(dir, q) := e])
    ensures SelfMapped(m[PdeWord(dir, q) := e], dir)
  {
    PageIndices(q, 0);
    PdePointerWalk(m, dir, q * 4096);
  }

  lemma StorePte(m: Memory, dir: nat, q: nat, e: nat)
    requires SelfMapped(m, dir) && q < 0x100000 && HasTable(m, dir, q)
    ensures VStore(m, dir, GetPTEPointer(q * 4096), e) == Some(SetPte(m, dir, q, e))
    ensures VLoad(m, dir, GetPTEPointer(q * 4096)) == Some(Load(m, PteWord(m, dir, q)))
  {
    PageIndices(q, 0);
    PtePointerWalk(m, dir, q * 4096);
  }

  lemma PageIndices(q: nat, offset: nat)
    requires offset < 4096
    ensures DirIndex(q * 4096 + offset) == q / 1024 && TableIndex(q * 4096 + offset) == q % 1024
    ensures (q * 4096 + offset) % 4096 == offset
  {
  }

  lemma EntryParts(t: nat)
    ensures Present(Entry(t, C_FLAGS)) && FrameOf(Entry(t, C_FLAGS)) == t
    ensures Present(Entry(t, BOOT_FLAGS)) && FrameOf(Entry(t, BOOT_FLAGS)) == t
  {
  }

  // memory.c:150 clears the new table and nothing else.
  lemma ClearTable(m: Memory, dir: nat, q: nat, t: nat)
    requires SelfMapped(m, dir) && q / 1024 < WINDOW && Load(m, PdeWord(dir, q)) == Entry(t, C_FLAGS)
    ensures VClear(m, dir, GetPTEPointer(q * 4096)) == Some(m + Zeros(t * DIRECTORY, DIRECTORY))
  {
    TableWindow(q);
    EntryParts(t);
    hide GetPTEPointer, DirIndex, TableIndex, Present, FrameOf, Entry;
    var base := 0xFFC00000 + (q / 1024) * 4096;
    assert Walk(m, dir, base) == Some(t * 4096);
  }

  // The page of the window through which the table of page q is seen.
  lemma TableWindow(q: nat)
    requires q / 1024 < WINDOW
    ensures var w, base := GetPTEPointer(q * 4096), 0xFFC00000 + (q / 1024) * 4096;
            w - w % 4096 == base && DirIndex(base) == WINDOW && TableIndex(base) == q / 1024 && base % 4096 == 0
  {
    PageIndices(q, 0);
  }

  lemma AddTableLoads(m: Memory, dir: nat, q: nat, t: nat)
    requires t != dir && q / 1024 < WINDOW
    ensures var m' := AddTable(m, dir, q, t);
            && Load(m', PdeWord(dir, q)) == Entry(t, C_FLAGS) && HasTable(m', dir, q) && PteWord(m', dir, q) == t * DIRECTORY + q % 1024
            && Load(m', dir * DIRECTORY + WINDOW) == Load(m, dir * DIRECTORY + WINDOW)
            && forall a: nat | !(t * DIRECTORY <= a < (t + 1) * DIRECTORY) && a != PdeWord(dir, q) :: Load(m', a) == Load(m, a)
  {
    hide Present, FrameOf, Entry;
    var a := PdeWord(dir, q);
    FrameWords(dir, q, t);
    assert Load(AddTable(m, dir, q, t), a) == Entry(t, C_FLAGS);
    EntryParts(t);
  }

  // A word of one frame is no word of another.
  lemma FrameWords(dir: nat, q: nat, t: nat)
    requires t != dir && q / 1024 < WINDOW
    ensures var z := Zeros(t * DIRECTORY, DIRECTORY);
            PdeWord(dir, q) !in z && dir * DIRECTORY + WINDOW !in z && PdeWord(dir, q) != dir * DIRECTORY + WINDOW
  {
  }

  // VirtualAddrToPhysicAddr agrees with the hardware on every mapped address.
  lemma TranslateIs(m: Memory, dir: nat, q: nat, offset: nat)
    requires SelfMapped(m, dir) && q < 0x100000 && FrameAt(m, dir, q).Some? && offset < 4096
    ensures VirtualAddrToPhysicAddr(m, dir, q * 4096 + offset) == Some(FrameAt(m, dir, q).value * 4096 + offset)
  {
    PageIndices(q, offset);
    PtePointerWalk(m, dir, q * 4096 + offset);
  }

  lemma PageUnmappingIs(m: Memory, dir: nat, q: nat)
    requires SelfMapped(m, dir) && q < 0x100000 && HasTable(m, dir, q)
    ensures PageUnmapping(m, dir, q * 4096) == Done(SetPte(m, dir, q, 0))
  {
    assert DirIndex(q * 4096) == q / 1024 && TableIndex(q * 4096) == q % 1024;
    PtePointerWalk(m, dir, q * 4096);
  }

  // Mapping a page and translating any address in it gives the frame plus the offset, both by the
  // hardware and by VirtualAddrToPhysicAddr.
  lemma MapThenTranslate(m: Memory, dir: nat, q: nat, frame: nat, table: Option<nat>, offset: nat)
    requires SelfMapped(m, dir) && q / 1024 < WINDOW && offset < 4096
    requires table.Some? ==> table.value != dir
    requires HasTable(m, dir, q) ==> FrameOf(Load(m, PdeWord(dir, q))) != dir
    requires PageMapping(m, dir, q * 4096, frame, table).Done?
    ensures var m' := PageMapping(m, dir, q * 4096, frame, table).m;
            && Walk(m', dir, q * 4096 + offset) == Some(frame * 4096 + offset)
            && VirtualAddrToPhysicAddr(m', dir, q * 4096 + offset) == Some(frame * 4096 + offset)
  {
    PageMappingIs(m, dir, q, frame, table);
    if HasTable(m, dir, q) {
      SetThenTranslate(m, dir, q, frame, offset);
    } else {
      AddTableLoads(m, dir, q, table.value);
      EntryParts(table.value);
      SetThenTranslate(AddTable(m, dir, q, table.value), dir, q, frame, offset);
    }
  }

  lemma SetThenTranslate(m: Memory, dir: nat, q: nat, frame: nat, offset: nat)
    requires SelfMapped(m, dir) && q / 1024 < WINDOW && offset < 4096
    requires HasTable(m, dir, q) && FrameOf(Load(m, PdeWord(dir, q))) != dir
    ensures var m' := SetPte(m, dir, q, Entry(frame, C_FLAGS));
            && Walk(m', dir, q * 4096 + offset) == Some(frame * 4096 + offset)
            && VirtualAddrToPhysicAddr(m', dir, q * 4096 + offset) == Some(frame * 4096 + offset)
  {
    var m' := SetPte(m, dir, q, Entry(frame, C_FLAGS));
    EntryParts(frame);
    SetPteLoads(m, dir, q, Entry(frame, C_FLAGS));
    assert FrameAt(m', dir, q) == Some(frame);
    WalkIsFrameAt(m', dir, q, offset);
    TranslateIs(m', dir, q, offset);
  }

  lemma SetPteLoads(m: Memory, dir: nat, q: nat, e: nat)
    requires HasTable(m, dir, q) && FrameOf(Load(m, PdeWord(dir, q))) != dir && q / 1024 < DIRECTORY
    ensures var m' := SetPte(m, dir, q, e);
            && (forall a: nat | dir * DIRECTORY <= a < (dir + 1) * DIRECTORY :: Load(m', a) == Load(m, a))
            && Load(m', PdeWord(dir, q)) == Load(m, PdeWord(dir, q)) && PteWord(m', dir, q) == PteWord(m, dir, q)
            && Load(m', PteWord(m', dir, q)) == e
  {
  }

  // A page that uses another table word keeps its translation.
  lemma SetPteElsewhere(m: Memory, dir: nat, q: nat, e: nat, other: nat)
    requires HasTable(m, dir, q) && FrameOf(Load(m, PdeWord(dir, q))) != dir && q / 1024 < DIRECTORY
    requires other / 1024 < DIRECTORY && HasTable(m, dir, other) ==> PteWord(m, dir, other) != PteWord(m, dir, q)
    ensures other / 1024 < DIRECTORY ==> FrameAt(SetPte(m, dir, q, e), dir, other) == FrameAt(m, dir, other)
  {
    SetPteLoads(m, dir, q, e);
    if other / 1024 < DIRECTORY {
      assert Load(SetPte(m, dir, q, e), PdeWord(dir, other)) == Load(m, PdeWord(dir, other));
    }
  }

  // Below the window, mapping a page changes no other page's translation, unless directory entries
  // share a table (as entries 0 and 768 do from boot on).
  lemma MapElsewhere(m: Memory, dir: nat, q: nat, frame: nat, table: Option<nat>, other: nat)
    requires SelfMapped(m, dir) && q / 1024 < WINDOW && other / 1024 < WINDOW && other != q
    requires PageMapping(m, dir, q * 4096, frame, table).Done?
    requires if HasTable(m, dir, q) then
               && FrameOf(Load(m, PdeWord(dir, q))) != dir
               && (HasTable(m, dir, other) && other / 1024 != q / 1024 ==>
                     FrameOf(Load(m, PdeWord(dir, other))) != FrameOf(Load(m, PdeWord(dir, q))))
             else table.Some? ==>
               && table.value != dir
               && (HasTable(m, dir, other) ==>
                     FrameOf(Load(m, PdeWord(dir, other))) != table.value && FrameOf(Load(m, PdeWord(dir, other))) != dir)
    ensures FrameAt(PageMapping(m, dir, q * 4096, frame, table).m, dir, other) == FrameAt(m, dir, other)
  {
    if HasTable(m, dir, q) {
      PageMappingIs(m, dir, q, frame, None);
      PageMappingTableUnused(m, dir, q, frame, table);
      SetPteElsewhere(m, dir, q, Entry(frame, C_FLAGS), other);
    } else {
      PageMappingIs(m, dir, q, frame, table);
      NewTableElsewhere(m, dir, q, frame, table.value, other);
    }
  }

  // An existing table is used as it is.
  lemma PageMappingTableUnused(m: Memory, dir: nat, q: nat, frame: nat, table: Option<nat>)
    requires SelfMapped(m, dir) && q / 1024 < WINDOW && HasTable(m, dir, q)
    ensures PageMapping(m, dir, q * 4096, frame, table) == PageMapping(m, dir, q * 4096, frame, None)
  {
    NeedsTableIs(m, dir, q);
    hide GetPDEPointer, GetPTEPointer, VLoad, VStore, NewTable;
  }

  lemma NewTableElsewhere(m: Memory, dir: nat, q: nat, frame: nat, t: nat, other: nat)
    requires q / 1024 < WINDOW && other / 1024 < WINDOW && other != q && t != dir && !HasTable(m, dir, q)
    requires HasTable(m, dir, other) ==> FrameOf(Load(m, PdeWord(dir, other))) != t && FrameOf(Load(m, PdeWord(dir, other))) != dir
    ensures FrameAt(SetPte(AddTable(m, dir, q, t), dir, q, Entry(frame, C_FLAGS)), dir, other) == FrameAt(m, dir, other)
  {
    var m1 := AddTable(m, dir, q, t);
    AddTableLoads(m, dir, q, t);
    EntryParts(t);
    if other / 1024 == q / 1024 {
      assert PteWord(m1, dir, other) == t * DIRECTORY + other % 1024;
      assert Load(m1, PteWord(m1, dir, other)) == 0;
    } else {
      AddTableElsewhere(m, dir, q, t, other);
    }
    SetPteElsewhere(m1, dir, q, Entry(frame, C_FLAGS), other);
  }

  lemma AddTableElsewhere(m: Memory, dir: nat, q: nat, t: nat, other: nat)
    requires q / 1024 < WINDOW && other / 1024 < WINDOW && other / 1024 != q / 1024 && t != dir
    requires HasTable(m, dir, other) ==> FrameOf(Load(m, PdeWord(dir, other))) != t && FrameOf(Load(m, PdeWord(dir, other))) != dir
    ensures FrameAt(AddTable(m, dir, q, t), dir, other) == FrameAt(m, dir, other)
    ensures HasTable(m, dir, other) ==> PteWord(AddTable(m, dir, q, t), dir, other) == PteWord(m, dir, other)
  {
    var m1 := AddTable(m, dir, q, t);
    AddTableLoads(m, dir, q, t);
    assert Load(m1, PdeWord(dir, other)) == Load(m, PdeWord(dir, other));
  }
}
