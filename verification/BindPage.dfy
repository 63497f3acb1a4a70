/** What installing one mapping does to the page walks. */
module BindPage {
  import opened Common
  import opened Paging
  import opened Bitmaps
  import opened MemoryState
  import opened MemoryOps

  /** Every translation that exists in some address space of m is the same in ram. */
  ghost predicate KeepsWalks(m: Mem, ram: Ram) {
    forall d: FrameNo, va: Word :: IsDir(m, d) && Walk(m.ram, d, va).Some? ==> Walk(ram, d, va) == Walk(m.ram, d, va)
  }

  /** The page an address stands for in directory d: slot 0 of the boot directory shows the
      kernel's first 4 MB a second time. */
  function PageIn(d: FrameNo, v: Word): nat {
    if d == BOOT_DIR && PdeIdx(v) == 0 then USER_END + v / PAGE else v / PAGE
  }

  /** The addresses of directory d that binding the n pages from vpn on in directory dir concerns:
      those pages, in every directory if they are the kernel's; and in dir's own window on its
      tables, the tables of their slots. */
  predicate Concerned(dir: FrameNo, d: FrameNo, v: Word, vpn: nat, n: nat) {
    if PdeIdx(v) == 1023 then d == dir && n > 0 && vpn / 1024 <= PteIdx(v) <= (vpn + n - 1) / 1024
    else (d == dir || vpn >= USER_END) && vpn <= PageIn(d, v) < vpn + n
  }

  /** Every other address of every address space translates as before, or is unmapped as before. */
  ghost predicate Isolated(m: Mem, ram: Ram, dir: FrameNo, vpn: nat, n: nat) {
    forall d: FrameNo, v: Word :: IsDir(m, d) && !Concerned(dir, d, v, vpn, n) ==> Walk(ram, d, v) == Walk(m.ram, d, v)
  }

  /** Below the kernel every address space is as it was, mapped or not. */
  ghost predicate UserKept(m: Mem, ram: Ram) {
    forall d: FrameNo, v: Word :: IsDir(m, d) && PageIn(d, v) < USER_END ==> Walk(ram, d, v) == Walk(m.ram, d, v)
  }

  /** A page-table word the walk of va uses, when va has a table. */
  function TableOf(ram: Ram, dir: FrameNo, va: Word): FrameNo {
    FrameOf(Rd(ram, dir, PdeIdx(va)))
  }

  lemma PageSplit(va: Word)
    ensures PdeIdx(va) == va / PAGE / 1024 && PteIdx(va) == va / PAGE % 1024
  {
  }

  /** Writing an absent entry of an existing table. */
  lemma BindPresentWalks(m: Mem, own: Owners, va: Word, f: FrameNo, dir: FrameNo)
    requires Inv(m, own) && IsDir(m, dir) && 0 < PdeIdx(va) < 1023
    requires Present(Rd(m.ram, dir, PdeIdx(va))) && Walk(m.ram, dir, va) == None
    ensures var ram := Wr(m.ram, TableOf(m.ram, dir, va), PteIdx(va), Entry(f));
      && KeepsWalks(m, ram) && Isolated(m, ram, dir, va / PAGE, 1) && Walk(ram, dir, va) == Some(f)
      && forall i: Index :: Rd(ram, dir, i) == Rd(m.ram, dir, i)
  {
    var ram := Wr(m.ram, TableOf(m.ram, dir, va), PteIdx(va), Entry(f));
    TableIsNoDir(m, own, dir, PdeIdx(va));
    forall d: FrameNo, v: Word | IsDir(m, d) && !Concerned(dir, d, v, va / PAGE, 1)
      ensures Walk(ram, d, v) == Walk(m.ram, d, v)
    {
      EntryUnseen(m, own, dir, va, d, v, f);
    }
  }

  /** An address of another page does not see the entry of va. */
  lemma EntryUnseen(m: Mem, own: Owners, dir: FrameNo, va: Word, d: FrameNo, v: Word, f: FrameNo)
    requires Inv(m, own) && IsDir(m, dir) && 0 < PdeIdx(va) < 1023 && Present(Rd(m.ram, dir, PdeIdx(va)))
    requires IsDir(m, d) && !Concerned(dir, d, v, va / PAGE, 1)
    ensures Walk(Wr(m.ram, TableOf(m.ram, dir, va), PteIdx(va), Entry(f)), d, v) == Walk(m.ram, d, v)
  {
    TableIsNoDir(m, own, dir, PdeIdx(va));
    if Present(Rd(m.ram, d, PdeIdx(v))) && TableOf(m.ram, d, v) == TableOf(m.ram, dir, va) {
      WhoSees(m, own, dir, PdeIdx(va), d, PdeIdx(v));
      OtherEntry(dir, va, d, v);
    }
    EntryWord(m.ram, TableOf(m.ram, dir, va), PteIdx(va), Entry(f), d, v);
  }

  lemma EntryWord(before: Ram, t: FrameNo, j: Index, w: Word, d: FrameNo, v: Word)
    requires d != t && (Present(Rd(before, d, PdeIdx(v))) && TableOf(before, d, v) == t ==> PteIdx(v) != j)
    ensures Walk(Wr(before, t, j, w), d, v) == Walk(before, d, v)
  {
  }

  lemma OtherEntry(dir: FrameNo, va: Word, d: FrameNo, v: Word)
    requires 0 < PdeIdx(va) < 1023 && !Concerned(dir, d, v, va / PAGE, 1)
    requires
      || (PdeIdx(v) == PdeIdx(va) && (d == dir || PdeIdx(va) >= KERNEL_PDE))
      || (d == BOOT_DIR && PdeIdx(v) == 0 && PdeIdx(va) == KERNEL_PDE)
    ensures PteIdx(v) != PteIdx(va)
  {
    PageSplit(v);
    PageSplit(va);
  }

  /** Which directory slots lead to the table behind a slot: a user table's only slot, a kernel
      table's slot in every directory, and slot 0 of the boot directory. */
  lemma WhoSees(m: Mem, own: Owners, dir: FrameNo, i: Index, d: FrameNo, k: Index)
    requires LayoutOk(m) && OwnersOk(m, own) && DirsOk(m, own) && ProcsOk(m, own) && UserSlotsOk(m, own)
    requires IsDir(m, dir) && IsDir(m, d) && 0 < i < 1023
    requires Present(Rd(m.ram, dir, i)) && Present(Rd(m.ram, d, k)) &&
      FrameOf(Rd(m.ram, d, k)) == FrameOf(Rd(m.ram, dir, i))
    ensures (k == i && (d == dir || i >= KERNEL_PDE)) || (d == BOOT_DIR && k == 0 && i == KERNEL_PDE)
  {
    Ranges(m, own);
    assert KernelHalf(m.ram, dir) && KernelHalf(m.ram, d);
    if i < KERNEL_PDE {
      var p :| 0 <= p < |m.procs| && m.procs[p].dir == dir;
      assert own[FrameOf(Rd(m.ram, dir, i))] == Table(p, i);
    }
    if k < KERNEL_PDE && d != BOOT_DIR {
      var q :| 0 <= q < |m.procs| && m.procs[q].dir == d;
      assert own[FrameOf(Rd(m.ram, d, k))] == Table(q, k);
    }
  }

  /** The table behind a slot is not a directory. */
  lemma TableIsNoDir(m: Mem, own: Owners, dir: FrameNo, i: Index)
    requires Inv(m, own) && IsDir(m, dir) && i < 1023 && Present(Rd(m.ram, dir, i))
    ensures var t := FrameOf(Rd(m.ram, dir, i)); !IsDir(m, t) && (t in own ==> own[t].Table?)
  {
    Ranges(m, own);
    assert KernelHalf(m.ram, dir);
    if i < KERNEL_PDE && dir != BOOT_DIR {
      var p :| 0 <= p < |m.procs| && m.procs[p].dir == dir;
      assert own[FrameOf(Rd(m.ram, dir, i))] == Table(p, i);
    }
  }

  /** Giving an empty slot a cleared table: no walk changes, but that the table shows in its own
      directory's window. */
  lemma AddTableWalks(m: Mem, own: Owners, p: nat, i: Index, t: FrameNo)
    requires Inv(m, own) && p < |m.procs| && 0 < i < KERNEL_PDE && t in own && own[t] == Table(p, i)
    requires !Present(Rd(m.ram, m.procs[p].dir, i))
    ensures var ram := ZeroFrame(Wr(m.ram, m.procs[p].dir, i, Entry(t)), t); var dir := m.procs[p].dir;
      && KeepsWalks(m, ram)
      && (forall d: FrameNo, v: Word :: IsDir(m, d) && !(d == dir && PdeIdx(v) == 1023 && PteIdx(v) == i) ==>
            Walk(ram, d, v) == Walk(m.ram, d, v))
      && (forall k: Index :: Rd(ram, dir, k) == if k == i then Entry(t) else Rd(m.ram, dir, k))
  {
    var dir := m.procs[p].dir;
    var ram := ZeroFrame(Wr(m.ram, dir, i, Entry(t)), t);
    Ranges(m, own);
    forall d: FrameNo, v: Word | IsDir(m, d) && !(d == dir && PdeIdx(v) == 1023 && PteIdx(v) == i)
      ensures Walk(ram, d, v) == Walk(m.ram, d, v)
    {
      NewTableWalk(m, own, p, i, t, d, v);
    }
    assert KernelHalf(m.ram, dir);
  }

  lemma NewTableWalk(m: Mem, own: Owners, p: nat, i: Index, t: FrameNo, d: FrameNo, v: Word)
    requires Inv(m, own) && p < |m.procs| && 0 < i < KERNEL_PDE && t in own && own[t] == Table(p, i)
    requires !Present(Rd(m.ram, m.procs[p].dir, i))
    requires IsDir(m, d) && !(d == m.procs[p].dir && PdeIdx(v) == 1023 && PteIdx(v) == i)
    ensures Walk(ZeroFrame(Wr(m.ram, m.procs[p].dir, i, Entry(t)), t), d, v) == Walk(m.ram, d, v)
  {
    NewTableUnseen(m, own, p, i, t, d, PdeIdx(v));
    TableWords(m.ram, m.procs[p].dir, i, t, d, v);
  }

  lemma NewTableUnseen(m: Mem, own: Owners, p: nat, i: Index, t: FrameNo, d: FrameNo, k: Index)
    requires Inv(m, own) && p < |m.procs| && 0 < i < KERNEL_PDE && t in own && own[t] == Table(p, i)
    requires !Present(Rd(m.ram, m.procs[p].dir, i)) && IsDir(m, d)
    ensures d != t && (Present(Rd(m.ram, d, k)) ==> FrameOf(Rd(m.ram, d, k)) != t)
    ensures Present(Rd(m.ram, d, k)) && FrameOf(Rd(m.ram, d, k)) == m.procs[p].dir ==> k == 1023 && d == m.procs[p].dir
  {
    assert LeadsTo(Rd(m.ram, d, 1023), d) by {
      assert KernelHalf(m.ram, d);
    }
    NewTableUnused(m, own, p, i, t, d, 1023);
    if Present(Rd(m.ram, d, k)) {
      NewTableUnused(m, own, p, i, t, d, k);
      if k < 1023 {
        TableIsNoDir(m, own, d, k);
      }
    }
  }

  /** A directory that does not lead to the new table, nor to its directory but through the
      self-map, reads no word that has changed. */
  lemma TableWords(before: Ram, dir: FrameNo, i: Index, t: FrameNo, d: FrameNo, v: Word)
    requires !Present(Rd(before, dir, i)) && !(d == dir && PdeIdx(v) == 1023 && PteIdx(v) == i)
    requires d != t && (Present(Rd(before, d, PdeIdx(v))) ==> TableOf(before, d, v) != t)
    requires Present(Rd(before, d, PdeIdx(v))) && TableOf(before, d, v) == dir ==> PdeIdx(v) == 1023 && d == dir
    ensures Walk(ZeroFrame(Wr(before, dir, i, Entry(t)), t), d, v) == Walk(before, d, v)
  {
  }

  lemma NewTableUnused(m: Mem, own: Owners, p: nat, i: Index, t: FrameNo, d: FrameNo, k: Index)
    requires Inv(m, own) && p < |m.procs| && i < KERNEL_PDE && t in own && own[t] == Table(p, i)
    requires !Present(Rd(m.ram, m.procs[p].dir, i))
    requires IsDir(m, d) && Present(Rd(m.ram, d, k))
    ensures d != t && FrameOf(Rd(m.ram, d, k)) != t && !(d == m.procs[p].dir && k == i)
  {
    Ranges(m, own);
    assert KernelHalf(m.ram, d);
    if k < KERNEL_PDE && d != BOOT_DIR {
      var q :| 0 <= q < |m.procs| && m.procs[q].dir == d;
      assert own[FrameOf(Rd(m.ram, d, k))] == Table(q, k);
    }
  }

  /** The owner of the frame behind page vpn in the address space of process `cur`. */
  function OwnerAt(cur: int, vpn: nat): Owner
    requires vpn < USER_END ==> cur >= 0
  {
    if vpn < USER_END then UserPage(cur, vpn) else KernelPage(vpn)
  }

  predicate PageMarked(m: Mem, cur: int, vpn: nat)
    requires vpn < USER_END ==> 0 <= cur < |m.procs|
  {
    if vpn < USER_END then VirtUsed(m.procs[cur].virt, vpn) else VirtUsed(m.kernelVirt, vpn)
  }

  /** Address space `cur` of m: the directory in use when process cur, or for -1 a thread
      without a process, runs. */
  function DirOf(m: Mem, cur: int): FrameNo
    requires -1 <= cur < |m.procs|
  {
    if cur < 0 then BOOT_DIR else m.procs[cur].dir
  }

  /** A page that may be bound: marked in its bitmap, not mapped, and frame f is set aside for it. */
  ghost predicate Bindable(m: Mem, own: Owners, cur: int, va: Word, f: FrameNo) {
    && -1 <= cur < |m.procs| && 0 < PdeIdx(va) < 1023 && (va / PAGE < USER_END ==> cur >= 0)
    && PageMarked(m, cur, va / PAGE)
    && f in own && own[f] == OwnerAt(cur, va / PAGE)
    && Walk(m.ram, DirOf(m, cur), va) == None
  }

  /** What binding va to f in the address space of cur does to memory. */
  ghost predicate Bound(m: Mem, ram: Ram, cur: int, va: Word, f: FrameNo)
    requires -1 <= cur < |m.procs|
  {
    var dir := DirOf(m, cur);
    && KeepsWalks(m, ram) && Isolated(m, ram, dir, va / PAGE, 1) && Walk(ram, dir, va) == Some(f)
    && (forall i: Index :: 0 < i < 1023 ==>
          (Present(Rd(ram, dir, i)) <==> Present(Rd(m.ram, dir, i)) || i == PdeIdx(va)))
  }

  lemma BindThere(m: Mem, own: Owners, cur: int, va: Word, f: FrameNo)
    requires Consistent(m, own) && Bindable(m, own, cur, va, f)
    requires Present(Rd(m.ram, DirOf(m, cur), PdeIdx(va)))
    ensures var ram := Wr(m.ram, TableOf(m.ram, DirOf(m, cur), va), PteIdx(va), Entry(f));
      Consistent(m.(ram := ram), own) && Bound(m, ram, cur, va, f)
  {
    Open(m, own);
    var dir := DirOf(m, cur);
    BindPresentWalks(m, own, va, f, dir);
    PageSplit(va);
    if va / PAGE < USER_END {
      MapUser(m, own, cur, va / PAGE, f);
    } else {
      assert KernelHalf(m.ram, dir);
      MapKernel(m, own, va / PAGE, f);
    }
    Close(m.(ram := Wr(m.ram, TableOf(m.ram, dir, va), PteIdx(va), Entry(f))), own);
  }

  lemma BindNew(m: Mem, own: Owners, cur: int, va: Word, f: FrameNo, t: FrameNo)
    requires Consistent(m, own) && Bindable(m, own, cur, va, f)
    requires !Present(Rd(m.ram, DirOf(m, cur), PdeIdx(va)))
    requires cur >= 0 && t in own && own[t] == Table(cur, PdeIdx(va))
    ensures var ram := Wr(ZeroFrame(Wr(m.ram, DirOf(m, cur), PdeIdx(va), Entry(t)), t), t, PteIdx(va), Entry(f));
      Consistent(m.(ram := ram), own) && Bound(m, ram, cur, va, f)
  {
    Open(m, own);
    var dir := DirOf(m, cur);
    assert KernelHalf(m.ram, dir);
    AddTable(m, own, cur, PdeIdx(va), t);
    AddTableWalks(m, own, cur, PdeIdx(va), t);
    var m1 := m.(ram := ZeroFrame(Wr(m.ram, dir, PdeIdx(va), Entry(t)), t));
    Close(m1, own);
    BindThere(m1, own, cur, va, f);
    var ram := Wr(m1.ram, t, PteIdx(va), Entry(f));
    PageSplit(va);
    forall d: FrameNo, v: Word | IsDir(m, d) && !Concerned(dir, d, v, va / PAGE, 1)
      ensures Walk(ram, d, v) == Walk(m.ram, d, v)
    {
      assert IsDir(m1, d) && Walk(m1.ram, d, v) == Walk(m.ram, d, v);
    }
  }

  /** An empty directory slot belongs to user space, so a process is running. */
  lemma EmptySlotIsUser(m: Mem, own: Owners, cur: int, va: Word)
    requires Consistent(m, own) && -1 <= cur < |m.procs| && 0 < PdeIdx(va) < 1023 && (va / PAGE < USER_END ==> cur >= 0)
    requires !Present(Rd(m.ram, DirOf(m, cur), PdeIdx(va)))
    ensures cur >= 0 && PdeIdx(va) < KERNEL_PDE && va / PAGE < USER_END
  {
    Open(m, own);
    assert KernelHalf(m.ram, DirOf(m, cur));
    PageSplit(va);
  }

  // ----- ranges of pages

  function PageVa(vpn: FrameNo): (va: Word)
    ensures va / PAGE == vpn && va % PAGE == 0 && PdeIdx(va) == vpn / 1024
  {
    vpn * PAGE
  }

  ghost predicate RangeMapped(ram: Ram, dir: FrameNo, vpn: nat, frames: seq<FrameNo>)
    requires vpn + |frames| <= 0x10_0000
  {
    forall j :: 0 <= j < |frames| ==> Walk(ram, dir, PageVa(vpn + j)) == Some(frames[j])
  }

  /** The frames of a range are new, and set aside for it, hence pairwise different. */
  ghost predicate RangeOwned(before: Owners, own: Owners, cur: int, vpn: nat, frames: seq<FrameNo>)
    requires vpn < USER_END ==> cur >= 0
  {
    forall j :: 0 <= j < |frames| ==>
      frames[j] !in before && frames[j] in own &&
        own[frames[j]] == if vpn < USER_END then UserPage(cur, vpn + j) else KernelPage(vpn + j)
  }

  predicate EmptySlot(ram: Ram, dir: FrameNo, i: nat) {
    i < 1024 && !Present(Rd(ram, dir, i))
  }

  /** The directory slots from a to b that are empty. */
  ghost function NewSlots(ram: Ram, dir: FrameNo, a: nat, b: nat): set<nat> {
    set i: nat | a <= i <= b && EmptySlot(ram, dir, i)
  }

  lemma SlotsOne(ram: Ram, dir: FrameNo, a: nat)
    ensures |NewSlots(ram, dir, a, a)| == if EmptySlot(ram, dir, a) then 1 else 0
  {
    assert NewSlots(ram, dir, a, a) == if EmptySlot(ram, dir, a) then {a} else {};
  }

  lemma SlotsNext(ram: Ram, dir: FrameNo, a: nat, b: nat)
    requires a <= b
    ensures |NewSlots(ram, dir, a, b + 1)| == |NewSlots(ram, dir, a, b)| + if EmptySlot(ram, dir, b + 1) then 1 else 0
  {
    var one: set<nat> := if EmptySlot(ram, dir, b + 1) then {b + 1} else {};
    assert NewSlots(ram, dir, a, b + 1) == NewSlots(ram, dir, a, b) + one;
  }

  /** An unmarked page is not mapped. */
  lemma UnmarkedUnmapped(m: Mem, own: Owners, cur: int, vpn: FrameNo)
    requires Consistent(m, own) && -1 <= cur < |m.procs| && 1024 <= vpn < 1023 * 1024 && (vpn < USER_END ==> cur >= 0)
    requires !PageMarked(m, cur, vpn) && (vpn >= USER_END ==> vpn >= KERNEL_HEAP)
    ensures Walk(m.ram, DirOf(m, cur), PageVa(vpn)) == None
  {
    Open(m, own);
    assert KernelHalf(m.ram, DirOf(m, cur));
    PageSplit(PageVa(vpn));
    assert vpn / 1024 * 1024 + vpn % 1024 == vpn;
  }

  /** The directory in use has the kernel's half. */
  lemma DirShape(m: Mem, own: Owners, cur: int)
    requires Consistent(m, own) && -1 <= cur < |m.procs|
    ensures KernelHalf(m.ram, DirOf(m, cur)) && IsDir(m, DirOf(m, cur))
    ensures SelfMapped(m.ram, DirOf(m, cur)) && forall t: nat :: t in own && !own[t].KernelPage? ==> t != DirOf(m, cur)
  {
    Open(m, own);
    Ranges(m, own);
  }

  /** How many empty slots the first k pages from vpn on touch. */
  ghost function SlotCount(ram: Ram, dir: FrameNo, vpn: nat, k: nat): nat {
    if k == 0 then 0 else |NewSlots(ram, dir, vpn / 1024, (vpn + k - 1) / 1024)|
  }

  /** Page number k of the range is the first one in an empty slot. */
  ghost predicate OpensSlot(ram: Ram, dir: FrameNo, vpn: nat, k: nat) {
    EmptySlot(ram, dir, (vpn + k) / 1024) && (k == 0 || (vpn + k) / 1024 != (vpn + k - 1) / 1024)
  }

  /** Counting the empty slots of a range page by page. */
  lemma SlotCountNext(ram: Ram, dir: FrameNo, vpn: nat, k: nat)
    ensures SlotCount(ram, dir, vpn, k + 1) ==
      SlotCount(ram, dir, vpn, k) + if OpensSlot(ram, dir, vpn, k) then 1 else 0
  {
    if k == 0 {
      SlotsOne(ram, dir, vpn / 1024);
    } else if (vpn + k) / 1024 != (vpn + k - 1) / 1024 {
      SlotsNext(ram, dir, vpn / 1024, (vpn + k - 1) / 1024);
    }
  }

  lemma {:induction false} SlotCountMonotone(ram: Ram, dir: FrameNo, vpn: nat, k: nat, n: nat)
    requires k <= n
    ensures SlotCount(ram, dir, vpn, k) <= SlotCount(ram, dir, vpn, n)
    decreases n - k
  {
    if k < n {
      SlotCountNext(ram, dir, vpn, k);
      SlotCountMonotone(ram, dir, vpn, k + 1, n);
    }
  }

  /** The state of memory after the first |frames| pages of a range have been bound: the four
      effects, each stated on its own so that a proof can ask for the one it needs. */
  datatype Effect = OldKept | RestKept | NewMapped | SlotsTaken

  ghost predicate Has(e: Effect, start: Mem, ram: Ram, cur: int, vpn: nat, frames: seq<FrameNo>)
    requires -1 <= cur < |start.procs| && vpn + |frames| <= 0x10_0000
  {
    match e
    case OldKept => KeepsWalks(start, ram)
    case RestKept => Isolated(start, ram, DirOf(start, cur), vpn, |frames|)
    case NewMapped => RangeMapped(ram, DirOf(start, cur), vpn, frames)
    case SlotsTaken => SlotsFilled(start.ram, ram, DirOf(start, cur), vpn, |frames|)
  }

  ghost predicate Filled(start: Mem, ram: Ram, cur: int, vpn: nat, frames: seq<FrameNo>) {
    && -1 <= cur < |start.procs| && vpn + |frames| <= 0x10_0000
    && forall e :: Has(e, start, ram, cur, vpn, frames)
  }

  lemma FilledHas(start: Mem, ram: Ram, cur: int, vpn: nat, frames: seq<FrameNo>)
    requires Filled(start, ram, cur, vpn, frames)
    ensures KeepsWalks(start, ram) && Isolated(start, ram, DirOf(start, cur), vpn, |frames|)
    ensures RangeMapped(ram, DirOf(start, cur), vpn, frames) &&
      SlotsFilled(start.ram, ram, DirOf(start, cur), vpn, |frames|)
  {
    assert Has(OldKept, start, ram, cur, vpn, frames) && Has(RestKept, start, ram, cur, vpn, frames);
    assert Has(NewMapped, start, ram, cur, vpn, frames) && Has(SlotsTaken, start, ram, cur, vpn, frames);
  }

  /** The slots in use are those in use before and those of the first n pages of the range. */
  ghost predicate SlotsFilled(before: Ram, ram: Ram, dir: FrameNo, vpn: nat, n: nat) {
    forall i: Index :: 0 < i < 1023 ==>
      (Present(Rd(ram, dir, i)) <==> Present(Rd(before, dir, i)) || (n > 0 && vpn / 1024 <= i <= (vpn + n - 1) / 1024))
  }

  lemma FilledNone(start: Mem, cur: int, vpn: nat)
    requires -1 <= cur < |start.procs| && vpn <= 0x10_0000
    ensures Filled(start, start.ram, cur, vpn, [])
  {
    forall e ensures Has(e, start, start.ram, cur, vpn, []) {
      match e
      case _ =>
    }
  }

  lemma ConcernedNext(dir: FrameNo, d: FrameNo, v: Word, vpn: nat, n: nat)
    requires !Concerned(dir, d, v, vpn, n + 1)
    requires vpn < USER_END ==> vpn + n < USER_END
    ensures !Concerned(dir, d, v, vpn, n) && !Concerned(dir, d, v, vpn + n, 1)
  {
  }

  /** One more page bound at the end of a range. */
  lemma FilledNext(start: Mem, m: Mem, ram: Ram, cur: int, vpn: nat, frames: seq<FrameNo>, frame: FrameNo)
    requires m.procs == start.procs && 1024 <= vpn && vpn + |frames| < 1023 * 1024
    requires vpn < USER_END ==> vpn + |frames| < USER_END
    requires Filled(start, m.ram, cur, vpn, frames)
    requires Bound(m, ram, cur, PageVa(vpn + |frames|), frame)
    ensures Filled(start, ram, cur, vpn, frames + [frame])
  {
    FilledHas(start, m.ram, cur, vpn, frames);
    var dir := DirOf(m, cur);
    assert KeepsWalks(start, ram) by {
      forall d: FrameNo, va: Word | IsDir(start, d) && Walk(start.ram, d, va).Some?
        ensures Walk(ram, d, va) == Walk(start.ram, d, va)
      {
        assert IsDir(m, d) && Walk(m.ram, d, va) == Walk(start.ram, d, va);
      }
    }
    assert Isolated(start, ram, dir, vpn, |frames| + 1) by {
      forall d: FrameNo, v: Word | IsDir(start, d) && !Concerned(dir, d, v, vpn, |frames| + 1)
        ensures Walk(ram, d, v) == Walk(start.ram, d, v)
      {
        ConcernedNext(dir, d, v, vpn, |frames|);
        assert IsDir(m, d) && Walk(m.ram, d, v) == Walk(start.ram, d, v);
      }
    }
    assert RangeMapped(ram, dir, vpn, frames + [frame]) by {
      forall j | 0 <= j < |frames| + 1 ensures Walk(ram, dir, PageVa(vpn + j)) == Some((frames + [frame])[j]) {
        if j < |frames| {
          assert Walk(m.ram, dir, PageVa(vpn + j)) == Some(frames[j]);
        }
      }
    }
    assert SlotsFilled(start.ram, ram, dir, vpn, |frames| + 1);
    forall e ensures Has(e, start, ram, cur, vpn, frames + [frame]) {
      match e
      case _ =>
    }
  }

  lemma FilledOne(m: Mem, ram: Ram, cur: int, vpn: nat, frame: FrameNo)
    requires -1 <= cur < |m.procs| && 1024 <= vpn < 1023 * 1024 && Bound(m, ram, cur, PageVa(vpn), frame)
    ensures Filled(m, ram, cur, vpn, [frame])
  {
    FilledNone(m, cur, vpn);
    FilledNext(m, m, ram, cur, vpn, [], frame);
    assert [frame] == [] + [frame];
  }

  /** What is known of the next page of a partly filled range. */
  lemma FilledRest(start: Mem, ram: Ram, cur: int, vpn: nat, frames: seq<FrameNo>, page: FrameNo)
    requires Filled(start, ram, cur, vpn, frames) && 1024 <= vpn && vpn + |frames| == page < 1023 * 1024
    ensures Walk(ram, DirOf(start, cur), PageVa(page)) == Walk(start.ram, DirOf(start, cur), PageVa(page))
    ensures EmptySlot(ram, DirOf(start, cur), page / 1024) <==> OpensSlot(start.ram, DirOf(start, cur), vpn, |frames|)
  {
    FilledHas(start, ram, cur, vpn, frames);
  }

  /** A frame that is new to `mid` is new to `before`, so the range's frames stay new. */
  lemma OwnedGrows(before: Owners, mid: Owners, own: Owners, cur: int, vpn: nat, frames: seq<FrameNo>, frame: FrameNo)
    requires vpn < USER_END ==> cur >= 0 && vpn + |frames| < USER_END
    requires RangeOwned(before, mid, cur, vpn, frames)
    requires forall f: nat :: f in before ==> f in mid
    requires forall f: nat :: f in mid ==> f in own && own[f] == mid[f]
    requires frame !in mid && frame in own && own[frame] == OwnerAt(cur, vpn + |frames|)
    ensures RangeOwned(before, own, cur, vpn, frames + [frame])
  {
  }

  /** No directory reads a data frame on a walk. */
  lemma DataUnseen(m: Mem, own: Owners, f: FrameNo, d: FrameNo, k: Index)
    requires Inv(m, own) && IsData(m, own, f) && IsDir(m, d)
    ensures d != f && (Present(Rd(m.ram, d, k)) ==> FrameOf(Rd(m.ram, d, k)) != f)
  {
    Ranges(m, own);
    assert KernelHalf(m.ram, d);
    if k < 1023 && Present(Rd(m.ram, d, k)) {
      TableIsNoDir(m, own, d, k);
    }
  }

  /** Rewriting a data frame changes no translation and maps nothing. */
  lemma DataWalks(m: Mem, own: Owners, ram: Ram, f: FrameNo, d: FrameNo, va: Word)
    requires Inv(m, own) && IsData(m, own, f) && IsDir(m, d)
    requires forall g: FrameNo, i: Index :: g != f ==> Rd(ram, g, i) == Rd(m.ram, g, i)
    ensures d != f && Walk(ram, d, va) == Walk(m.ram, d, va)
  {
    DataUnseen(m, own, f, d, PdeIdx(va));
  }

  lemma FilledZero(start: Mem, m: Mem, own: Owners, cur: int, vpn: nat, frames: seq<FrameNo>, f: FrameNo)
    requires Consistent(m, own) && IsData(m, own, f) && m.procs == start.procs
    requires Filled(start, m.ram, cur, vpn, frames)
    ensures Filled(start, ZeroFrame(m.ram, f), cur, vpn, frames)
  {
    FilledHas(start, m.ram, cur, vpn, frames);
    Open(m, own);
    var ram := ZeroFrame(m.ram, f);
    forall d: FrameNo, va: Word | IsDir(m, d) ensures d != f && Walk(ram, d, va) == Walk(m.ram, d, va) {
      DataWalks(m, own, ram, f, d, va);
    }
    assert KeepsWalks(start, ram) by {
      forall d: FrameNo, va: Word | IsDir(start, d) && Walk(start.ram, d, va).Some?
        ensures Walk(ram, d, va) == Walk(start.ram, d, va)
      {
        assert IsDir(m, d) && Walk(m.ram, d, va) == Walk(start.ram, d, va);
      }
    }
    assert IsDir(m, DirOf(start, cur));
    assert DirOf(start, cur) != f by { DataWalks(m, own, ram, f, DirOf(start, cur), 0); }
    assert Isolated(start, ram, DirOf(start, cur), vpn, |frames|);
    assert RangeMapped(ram, DirOf(start, cur), vpn, frames);
    assert SlotsFilled(start.ram, ram, DirOf(start, cur), vpn, |frames|);
    forall e ensures Has(e, start, ram, cur, vpn, frames) {
      match e
      case _ =>
    }
  }

  /** The frames of a range are data: they are new, and directories are not. */
  lemma RangeIsData(start: Mem, owners: Owners, m: Mem, own: Owners, cur: int, vpn: nat, frames: seq<FrameNo>, j: nat)
    requires Consistent(start, owners) && m.procs == start.procs && j < |frames|
    requires (vpn < USER_END ==> cur >= 0) && RangeOwned(owners, own, cur, vpn, frames)
    ensures IsData(m, own, frames[j])
  {
    Open(start, owners);
  }

  // ----- virtual ranges

  /** The search over a range's flags: it treats all of `used` alike, except that it panics when
      the bitmap itself is full. */
  function Request(virt: Virt, n: nat): (found: Found)
    requires n > 0 && virt.used != []
    ensures found.At? ==> ClearRun(virt.used, found.start, n)
  {
    assert Bits(virt) + [virt.used[|virt.used| - 1]] == virt.used;
    Search(Bits(virt), virt.used[|virt.used| - 1], n)
  }

  /** The page behind user space is mapped in every address space. */
  lemma UserEndMapped(m: Mem, own: Owners, cur: int)
    requires Consistent(m, own) && -1 <= cur < |m.procs|
    ensures Walk(m.ram, DirOf(m, cur), PageVa(USER_END)).Some?
  {
    Open(m, own);
    assert KernelHalf(m.ram, DirOf(m, cur));
  }

  predicate UserRange(vpn: nat, n: nat) {
    USER_START <= vpn && vpn + n <= USER_END
  }

  predicate KernelRange(vpn: nat, n: nat) {
    KERNEL_HEAP <= vpn && vpn + n <= 1023 * 1024
  }

  /** The pages of a range that was clear and has been marked. */
  lemma FreshRange(m: Mem, own: Owners, m': Mem, cur: int, vpn: nat, n: nat)
    requires Consistent(m, own) && -1 <= cur < |m.procs|
    requires KernelRange(vpn, n) || (cur >= 0 && UserRange(vpn, n))
    requires m'.ram == m.ram && |m'.procs| == |m.procs| && DirOf(m', cur) == DirOf(m, cur)
    requires forall page: nat :: vpn <= page < vpn + n ==> !PageMarked(m, cur, page) && PageMarked(m', cur, page)
    ensures forall page: nat :: vpn <= page < vpn + n ==>
      PageMarked(m', cur, page) && Walk(m'.ram, DirOf(m', cur), PageVa(page)) == None
  {
    forall page: nat | vpn <= page < vpn + n ensures Walk(m'.ram, DirOf(m', cur), PageVa(page)) == None {
      UnmarkedUnmapped(m, own, cur, page);
    }
  }

  ghost predicate Cleared(ram: Ram, f: FrameNo) {
    forall i: Index :: Rd(ram, f, i) == 0
  }

  lemma ClearedMore(ram: Ram, frames: seq<FrameNo>, k: nat)
    requires k < |frames| && forall j :: 0 <= j < k ==> Cleared(ram, frames[j])
    ensures forall j :: 0 <= j <= k ==> Cleared(ZeroFrame(ram, frames[k]), frames[j])
  {
    forall j | 0 <= j <= k ensures Cleared(ZeroFrame(ram, frames[k]), frames[j]) {
      assert j < k ==> Cleared(ram, frames[j]);
    }
  }

  /** What a successful allocation of |frames| pages from vpn on has done to memory. */
  ghost predicate Delivered(m: Mem, own: Owners, ram: Ram, own': Owners, cur: int, vpn: nat, frames: seq<FrameNo>) {
    && 1024 <= vpn && vpn + |frames| <= 1023 * 1024 && Filled(m, ram, cur, vpn, frames)
    && (vpn < USER_END ==> cur >= 0) && RangeOwned(own, own', cur, vpn, frames)
    && (forall j :: 0 <= j < |frames| ==> Cleared(ram, frames[j]))
    && (forall page: FrameNo :: vpn <= page < vpn + |frames| ==> Walk(m.ram, DirOf(m, cur), PageVa(page)) == None)
  }

  /** Marking bits does not matter to Filled ... */
  lemma FilledFrom(m: Mem, start: Mem, ram: Ram, cur: int, vpn: nat, frames: seq<FrameNo>)
    requires -1 <= cur < |m.procs| == |start.procs| && start.ram == m.ram
    requires forall p :: 0 <= p < |m.procs| ==> m.procs[p].dir == start.procs[p].dir
    requires Filled(start, ram, cur, vpn, frames)
    ensures Filled(m, ram, cur, vpn, frames)
  {
    FilledHas(start, ram, cur, vpn, frames);
    forall d: FrameNo, va: Word | IsDir(m, d) && Walk(m.ram, d, va).Some?
      ensures Walk(ram, d, va) == Walk(m.ram, d, va)
    {
      assert IsDir(start, d);
    }
    forall e ensures Has(e, m, ram, cur, vpn, frames) {
      match e
      case _ =>
    }
  }

  /** ... nor to what is delivered. */
  lemma DeliveredFrom(m: Mem, start: Mem, own: Owners, ram: Ram, own': Owners, cur: int, vpn: nat, frames: seq<FrameNo>)
    requires -1 <= cur < |m.procs| == |start.procs| && start.ram == m.ram
    requires forall p :: 0 <= p < |m.procs| ==> m.procs[p].dir == start.procs[p].dir
    requires Delivered(start, own, ram, own', cur, vpn, frames)
    ensures Delivered(m, own, ram, own', cur, vpn, frames)
  {
    FilledFrom(m, start, ram, cur, vpn, frames);
  }

  /** Writing a word of a data frame changes no translation. */
  lemma WriteWalks(m: Mem, own: Owners, f: FrameNo, i: Index, w: Word, cur: int, va: Word)
    requires Consistent(m, own) && IsData(m, own, f) && -1 <= cur < |m.procs|
    ensures DirOf(m, cur) != f && Walk(Wr(m.ram, f, i, w), DirOf(m, cur), va) == Walk(m.ram, DirOf(m, cur), va)
  {
    Open(m, own);
    DataWalks(m, own, Wr(m.ram, f, i, w), f, DirOf(m, cur), va);
  }

  /** The table entry behind a mapped kernel page, and the walk in every address space. */
  lemma KernelEntry(m: Mem, own: Owners, cur: int, vpn: FrameNo, f: FrameNo)
    requires Consistent(m, own) && -1 <= cur < |m.procs| && KERNEL_HEAP <= vpn < 1023 * 1024
    ensures LeadsTo(Rd(m.ram, KernelTable(vpn / 1024), vpn % 1024), f) <==>
      Walk(m.ram, DirOf(m, cur), PageVa(vpn)) == Some(f)
  {
    Open(m, own);
    assert KernelHalf(m.ram, DirOf(m, cur));
    PageSplit(PageVa(vpn));
  }

  /** What is done to kernel pages does not show below the kernel. */
  lemma KernelAbove(m: Mem, ram: Ram, dir: FrameNo, vpn: nat, n: nat)
    requires Isolated(m, ram, dir, vpn, n) && vpn >= USER_END
    ensures UserKept(m, ram)
  {
  }

  /** A kernel page that has been delivered is data. */
  lemma KernelPageDelivered(m: Mem, own: Owners, m': Mem, own': Owners, cur: int, vpn: nat, frames: seq<FrameNo>)
    requires Consistent(m, own) && m'.procs == m.procs && -1 <= cur < |m.procs|
    requires |frames| == 1 && KERNEL_HEAP <= vpn && Delivered(m, own, m'.ram, own', cur, vpn, frames)
    ensures IsData(m', own', frames[0]) && own'[frames[0]] == KernelPage(vpn) && Cleared(m'.ram, frames[0])
    ensures Walk(m'.ram, DirOf(m', cur), PageVa(vpn)) == Some(frames[0]) && KeepsWalks(m, m'.ram) && UserKept(m, m'.ram)
  {
    FilledHas(m, m'.ram, cur, vpn, frames);
    KernelAbove(m, m'.ram, DirOf(m, cur), vpn, 1);
    RangeIsData(m, own, m', own', cur, vpn, frames, 0);
    assert PageVa(vpn + 0) == PageVa(vpn);
  }

  /** Rewriting a data frame keeps the translations kept so far. */
  lemma KeepsAfterData(start: Mem, m: Mem, own: Owners, ram: Ram, f: FrameNo)
    requires KeepsWalks(start, m.ram) && m.procs == start.procs && Consistent(m, own) && IsData(m, own, f)
    requires forall g: FrameNo, i: Index :: g != f ==> Rd(ram, g, i) == Rd(m.ram, g, i)
    ensures KeepsWalks(start, ram) && (UserKept(start, m.ram) ==> UserKept(start, ram))
  {
    Open(m, own);
    forall d: FrameNo, va: Word | IsDir(start, d)
      ensures Walk(start.ram, d, va).Some? ==> Walk(ram, d, va) == Walk(start.ram, d, va)
      ensures PageIn(d, va) < USER_END && UserKept(start, m.ram) ==> Walk(ram, d, va) == Walk(start.ram, d, va)
    {
      assert IsDir(m, d);
      DataWalks(m, own, ram, f, d, va);
    }
  }

  /** Writing word i of a mapped data page through its address. */
  lemma WritePageWord(m: Mem, own: Owners, cur: int, page: FrameNo, f: FrameNo, i: Index, w: Word)
    requires Consistent(m, own) && -1 <= cur < |m.procs| && IsData(m, own, f)
    requires Walk(m.ram, DirOf(m, cur), PageVa(page)) == Some(f)
    ensures Walk(m.ram, DirOf(m, cur), page * PAGE + i * 4) == Some(f) && WordIdx(page * PAGE + i * 4) == i
    ensures Consistent(m.(ram := Wr(m.ram, f, i, w)), own) && DirOf(m, cur) != f
    ensures Walk(Wr(m.ram, f, i, w), DirOf(m, cur), PageVa(page)) == Some(f)
  {
    PageWord(m.ram, DirOf(m, cur), page, i);
    WriteData(m, own, f, i, w);
    WriteWalks(m, own, f, i, w, cur, PageVa(page));
  }

  lemma PageWord(ram: Ram, dir: FrameNo, page: FrameNo, i: Index)
    ensures Walk(ram, dir, page * PAGE + i * 4) == Walk(ram, dir, PageVa(page)) && WordIdx(page * PAGE + i * 4) == i
  {
    assert page * PAGE + i * 4 == AddressOf(page / 1024, page % 1024, i);
    assert PageVa(page) == AddressOf(page / 1024, page % 1024, 0);
    Split(page / 1024, page % 1024, i);
    Split(page / 1024, page % 1024, 0);
  }
}
