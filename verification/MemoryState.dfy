/** The allocator's state and invariant: who owns each pool frame, and what the directories
    and tables say about it. */
module MemoryState {
  import opened Common
  import opened Paging
  import opened Bitmaps

  /** loader.asm:323, loader.asm:239-243 and 255-266: where the boot directory and the
      kernel's page tables are. */
  const BOOT_DIR: FrameNo := 0x100
  const FIRST_TABLE: nat := 0x101
  const KERNEL_PDE: nat := 768
  /** memory.c:16 and process.c:15, as page numbers. */
  const KERNEL_HEAP: nat := 0xc_0100
  const USER_START: nat := 0x8048
  const USER_END: nat := 0xc_0000

  datatype Pool = Pool(start: nat, used: seq<bool>)
  /** A virtual range: its first page and, in `used`, the flags of its bitmap and last the bit
      behind it, which the search treats as one more flag (see Bitmaps.OverrunExactly). */
  datatype Virt = Virt(start: nat, used: seq<bool>)
  datatype Process = Process(dirPage: nat, dir: FrameNo, virt: Virt)

  datatype Mem = Mem(ram: Ram, kernelPool: Pool, userPool: Pool, kernelVirt: Virt, procs: seq<Process>)

  /** What a pool frame is used for. */
  datatype Owner = KernelPage(vpn: nat) | UserPage(p: nat, vpn: nat) | Table(p: nat, slot: nat)
  type Owners = map<nat, Owner>

  predicate InUse(pool: Pool, f: nat) {
    pool.start <= f < pool.start + |pool.used| && pool.used[f - pool.start]
  }

  predicate VirtUsed(virt: Virt, vpn: nat) {
    virt.start <= vpn < virt.start + |virt.used| && virt.used[vpn - virt.start]
  }

  /** The flags of the bitmap itself. */
  function Bits(virt: Virt): seq<bool>
    requires virt.used != []
  {
    virt.used[..|virt.used| - 1]
  }

  predicate LayoutOk(m: Mem) {
    && 512 <= m.kernelPool.start && m.kernelPool.start + |m.kernelPool.used| <= m.userPool.start
    && m.userPool.start + |m.userPool.used| <= 0x10_0000
    && m.kernelVirt.start == KERNEL_HEAP && m.kernelVirt.used != [] && KERNEL_HEAP + |m.kernelVirt.used| <= 1023 * 1024
    && forall p :: 0 <= p < |m.procs| ==>
         m.procs[p].virt.start == USER_START && USER_START + |m.procs[p].virt.used| == USER_END + 1
  }

  /** The kernel table of directory slot i. */
  function KernelTable(i: nat): FrameNo
    requires KERNEL_PDE <= i < 1023
  {
    FIRST_TABLE + i - KERNEL_PDE
  }

  /** A directory's upper half: the shared kernel tables and itself. */
  ghost predicate KernelHalf(ram: Ram, dir: FrameNo) {
    && Rd(ram, dir, 1023) == Entry(dir)
    && forall i: Index :: KERNEL_PDE <= i < 1023 ==> Rd(ram, dir, i) == Entry(KernelTable(i))
  }

  predicate IsDir(m: Mem, d: FrameNo) {
    d == BOOT_DIR || exists p :: 0 <= p < |m.procs| && m.procs[p].dir == d
  }

  ghost predicate DirsOk(m: Mem, own: Owners) {
    && KernelHalf(m.ram, BOOT_DIR)
    && (forall i: Index :: 0 < i < KERNEL_PDE ==> !Present(Rd(m.ram, BOOT_DIR, i)))
    && Rd(m.ram, BOOT_DIR, 0) == Entry(FIRST_TABLE)
    && (forall p :: 0 <= p < |m.procs| ==> KernelHalf(m.ram, m.procs[p].dir))
    && (forall j: Index :: j < 256 ==> Rd(m.ram, FIRST_TABLE, j) == Entry(j))
  }

  predicate LeadsTo(w: Word, f: FrameNo) {
    Present(w) && FrameOf(w) == f
  }

  /** Each process directory is a kernel page of its own, mapped where pgdir points. */
  ghost predicate ProcsOk(m: Mem, own: Owners) {
    forall p :: 0 <= p < |m.procs| ==>
      var pr := m.procs[p];
      && KERNEL_HEAP <= pr.dirPage < 1023 * 1024
      && pr.dir in own && own[pr.dir] == KernelPage(pr.dirPage)
      && LeadsTo(Rd(m.ram, KernelTable(pr.dirPage / 1024), pr.dirPage % 1024), pr.dir)
      && forall q :: 0 <= q < p ==> m.procs[q].dir != pr.dir
  }

  /** A pool frame has an owner exactly when its bit is set; kernel pages and tables come from
      the kernel pool, user pages from the user pool. */
  ghost predicate OwnersOk(m: Mem, own: Owners) {
    && (forall f: nat :: f in own <==> InUse(m.kernelPool, f) || InUse(m.userPool, f))
    && (forall f: nat :: f in own ==> (own[f].UserPage? <==> InUse(m.userPool, f)))
  }

  /** Every present kernel heap entry leads to the frame owned by that page, and permits its use. */
  ghost predicate KernelEntriesOk(m: Mem, own: Owners) {
    forall i: Index, j: Index :: KERNEL_PDE <= i < 1023 && i * 1024 + j >= KERNEL_HEAP ==>
      var w := Rd(m.ram, KernelTable(i), j);
      Present(w) ==>
        && FrameOf(w) in own && own[FrameOf(w)] == KernelPage(i * 1024 + j)
        && VirtUsed(m.kernelVirt, i * 1024 + j) && Permits(w)
  }

  /** Every present user directory entry leads to a table owned by that slot ... */
  ghost predicate UserSlotsOk(m: Mem, own: Owners) {
    forall p, i: Index :: 0 <= p < |m.procs| && i < KERNEL_PDE ==>
      var e := Rd(m.ram, m.procs[p].dir, i);
      Present(e) ==> FrameOf(e) in own && own[FrameOf(e)] == Table(p, i) && Permits(e)
  }

  /** ... and every present entry of such a table to the frame owned by that page. */
  ghost predicate UserEntriesOk(m: Mem, own: Owners) {
    forall p, i: Index, j: Index :: 0 <= p < |m.procs| && i < KERNEL_PDE && Present(Rd(m.ram, m.procs[p].dir, i)) ==>
      var w := Rd(m.ram, FrameOf(Rd(m.ram, m.procs[p].dir, i)), j);
      Present(w) ==>
        && FrameOf(w) in own && own[FrameOf(w)] == UserPage(p, i * 1024 + j)
        && VirtUsed(m.procs[p].virt, i * 1024 + j) && Permits(w)
  }

  ghost predicate Inv(m: Mem, own: Owners) {
    && LayoutOk(m)
    && OwnersOk(m, own)
    && DirsOk(m, own)
    && ProcsOk(m, own)
    && KernelEntriesOk(m, own)
    && UserSlotsOk(m, own)
    && UserEntriesOk(m, own)
  }

  /** The invariant once more, one aspect at a time: whoever needs the aspects opens it. */
  datatype Aspect = Layout | Ownership | Directories | Processes | KernelEntries | UserSlots | UserEntries

  ghost predicate Holds(a: Aspect, m: Mem, own: Owners) {
    match a
    case Layout => LayoutOk(m)
    case Ownership => OwnersOk(m, own)
    case Directories => DirsOk(m, own)
    case Processes => ProcsOk(m, own)
    case KernelEntries => KernelEntriesOk(m, own)
    case UserSlots => UserSlotsOk(m, own)
    case UserEntries => UserEntriesOk(m, own)
  }

  ghost predicate Consistent(m: Mem, own: Owners) {
    forall a :: Holds(a, m, own)
  }

  lemma Open(m: Mem, own: Owners)
    requires Consistent(m, own)
    ensures Inv(m, own)
  {
    assert Holds(Layout, m, own) && Holds(Ownership, m, own) && Holds(Directories, m, own) && Holds(Processes, m, own);
    assert Holds(KernelEntries, m, own) && Holds(UserSlots, m, own) && Holds(UserEntries, m, own);
  }

  lemma Close(m: Mem, own: Owners)
    requires Inv(m, own)
    ensures Consistent(m, own)
  {
    forall a ensures Holds(a, m, own) {
      match a
      case _ =>
    }
  }

  // ----- what the invariant means

  /** The directories agree on all kernel addresses, so a kernel mapping made in one address
      space is there in all of them; and every directory maps itself. */
  lemma KernelHalfAgrees(m: Mem, own: Owners, d: FrameNo, e: FrameNo, va: Word)
    requires Inv(m, own) && IsDir(m, d) && IsDir(m, e)
    ensures forall i: Index :: KERNEL_PDE <= i < 1023 ==> Rd(m.ram, d, i) == Rd(m.ram, e, i)
    ensures SelfMapped(m.ram, d)
    ensures KERNEL_PDE <= PdeIdx(va) < 1023 ==> Walk(m.ram, d, va) == Walk(m.ram, e, va)
  {
    assert KernelHalf(m.ram, d) && KernelHalf(m.ram, e);
  }

  /** Whatever is mapped in an address space, user mode may read and write there. */
  lemma MappedPermits(m: Mem, own: Owners, d: FrameNo, va: Word)
    requires Inv(m, own) && IsDir(m, d)
    ensures Walk(m.ram, d, va).Some? <==> UserAccess(m.ram, d, va)
  {
    AccessIs(m.ram, d, va);
    DirPermits(m, own, d, PdeIdx(va));
    if PdeIdx(va) == 1023 {
      assert KernelHalf(m.ram, d);
      DirPermits(m, own, d, PteIdx(va));
    } else if PdeIdx(va) >= KERNEL_PDE {
      assert KernelHalf(m.ram, d);
      KernelPermits(m, own, PdeIdx(va), PteIdx(va));
    } else if d == BOOT_DIR {
      KernelPermits(m, own, KERNEL_PDE, PteIdx(va));
    } else {
      var p :| 0 <= p < |m.procs| && m.procs[p].dir == d;
    }
  }

  lemma DirPermits(m: Mem, own: Owners, d: FrameNo, i: Index)
    requires Inv(m, own) && IsDir(m, d)
    ensures Present(Rd(m.ram, d, i)) ==> Permits(Rd(m.ram, d, i))
  {
    assert KernelHalf(m.ram, d);
    if i < KERNEL_PDE && d != BOOT_DIR {
      var p :| 0 <= p < |m.procs| && m.procs[p].dir == d;
    }
  }

  lemma KernelPermits(m: Mem, own: Owners, i: Index, j: Index)
    requires KernelEntriesOk(m, own) && KERNEL_PDE <= i < 1023
    requires forall k: Index :: k < 256 ==> Rd(m.ram, FIRST_TABLE, k) == Entry(k)
    ensures Present(Rd(m.ram, KernelTable(i), j)) ==> Permits(Rd(m.ram, KernelTable(i), j))
  {
    assert i * 1024 + j < KERNEL_HEAP ==> KernelTable(i) == FIRST_TABLE && j < 256;
  }

  /** The same of a directory no process has yet: empty below the kernel, the kernel's entries above. */
  lemma NewDirPermits(m: Mem, own: Owners, d: FrameNo, va: Word)
    requires Inv(m, own) && KernelHalf(m.ram, d) && forall i: Index :: i < KERNEL_PDE ==> Rd(m.ram, d, i) == 0
    ensures Walk(m.ram, d, va).Some? <==> UserAccess(m.ram, d, va)
  {
    AccessIs(m.ram, d, va);
    if KERNEL_PDE <= PdeIdx(va) < 1023 {
      KernelPermits(m, own, PdeIdx(va), PteIdx(va));
    }
  }

  /** A page-table word: its frame and index. */
  datatype Slot = Slot(table: FrameNo, index: Index)

  /** The words the processor uses as page-table entries of pool-backed pages: the kernel heap's
      and those of every process's user tables. */
  ghost predicate IsPte(m: Mem, s: Slot) {
    || (exists i: Index :: KERNEL_PDE <= i < 1023 && i * 1024 + s.index >= KERNEL_HEAP && s.table == KernelTable(i))
    || (exists p, i: Index :: 0 <= p < |m.procs| && i < KERNEL_PDE && Present(Rd(m.ram, m.procs[p].dir, i)) &&
          s.table == FrameOf(Rd(m.ram, m.procs[p].dir, i)))
  }

  /** The words used as user directory entries. */
  ghost predicate IsPde(m: Mem, s: Slot) {
    exists p :: 0 <= p < |m.procs| && s.table == m.procs[p].dir && s.index < KERNEL_PDE
  }

  /** The page a page-table word stands for. */
  ghost function PageOf(m: Mem, own: Owners, s: Slot): Owner
    requires Inv(m, own) && IsPte(m, s)
  {
    if s.table < 512 then KernelPage((s.table as int - FIRST_TABLE + KERNEL_PDE) * 1024 + s.index)
    else
      assert s.table in own && own[s.table].Table? by {
        var p, i: Index :| 0 <= p < |m.procs| && i < KERNEL_PDE && Present(Rd(m.ram, m.procs[p].dir, i)) &&
          s.table == FrameOf(Rd(m.ram, m.procs[p].dir, i));
      }
      UserPage(own[s.table].p, own[s.table].slot * 1024 + s.index)
  }

  lemma PteTarget(m: Mem, own: Owners, s: Slot)
    requires Inv(m, own) && IsPte(m, s) && Present(Rd(m.ram, s.table, s.index))
    ensures var f := FrameOf(Rd(m.ram, s.table, s.index));
      f in own && own[f] == PageOf(m, own, s)
  {
    if i: Index :| KERNEL_PDE <= i < 1023 && i * 1024 + s.index >= KERNEL_HEAP && s.table == KernelTable(i) {
      KernelTarget(m, own, i, s.index);
    } else {
      var p, i: Index :| 0 <= p < |m.procs| && i < KERNEL_PDE && Present(Rd(m.ram, m.procs[p].dir, i)) &&
        s.table == FrameOf(Rd(m.ram, m.procs[p].dir, i));
      UserTarget(m, own, p, i, s.index);
    }
  }

  lemma KernelTarget(m: Mem, own: Owners, i: Index, j: Index)
    requires KernelEntriesOk(m, own) && KERNEL_PDE <= i < 1023 && i * 1024 + j >= KERNEL_HEAP
    requires Present(Rd(m.ram, KernelTable(i), j))
    ensures var f := FrameOf(Rd(m.ram, KernelTable(i), j)); f in own && own[f] == KernelPage(i * 1024 + j)
  {
  }

  lemma UserTarget(m: Mem, own: Owners, p: nat, i: Index, j: Index)
    requires LayoutOk(m) && OwnersOk(m, own) && UserSlotsOk(m, own) && UserEntriesOk(m, own)
    requires p < |m.procs| && i < KERNEL_PDE && Present(Rd(m.ram, m.procs[p].dir, i))
    requires Present(Rd(m.ram, FrameOf(Rd(m.ram, m.procs[p].dir, i)), j))
    ensures var t := FrameOf(Rd(m.ram, m.procs[p].dir, i)); var f := FrameOf(Rd(m.ram, t, j));
      t in own && own[t] == Table(p, i) && t >= 512 && f in own && own[f] == UserPage(p, i * 1024 + j)
  {
  }

  /** No frame is the target of two page-table entries, and none is both a mapped data frame and
      a page table. A mapped frame has its physical bit set. */
  lemma NoFrameShared(m: Mem, own: Owners, s: Slot, t: Slot)
    requires Inv(m, own) && IsPte(m, s) && Present(Rd(m.ram, s.table, s.index)) && Present(Rd(m.ram, t.table, t.index))
    requires FrameOf(Rd(m.ram, s.table, s.index)) == FrameOf(Rd(m.ram, t.table, t.index))
    ensures IsPte(m, t) ==> s == t
    ensures !IsPde(m, t)
    ensures var f := FrameOf(Rd(m.ram, s.table, s.index)); InUse(m.kernelPool, f) || InUse(m.userPool, f)
  {
    PteTarget(m, own, s);
    if IsPte(m, t) {
      PteTarget(m, own, t);
      if s.table >= 512 && t.table >= 512 {
        SameTable(m, own, s.table, t.table);
      }
    }
  }

  lemma SameTable(m: Mem, own: Owners, a: FrameNo, b: FrameNo)
    requires Inv(m, own) && a in own && b in own && own[a] == own[b] && own[a].Table?
    requires exists p, i: Index :: 0 <= p < |m.procs| && i < KERNEL_PDE && LeadsTo(Rd(m.ram, m.procs[p].dir, i), a)
    requires exists p, i: Index :: 0 <= p < |m.procs| && i < KERNEL_PDE && LeadsTo(Rd(m.ram, m.procs[p].dir, i), b)
    ensures a == b
  {
  }
}
