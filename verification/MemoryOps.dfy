/** The single changes the allocator makes, and that each keeps the invariant. */
module MemoryOps {
  import opened Common
  import opened Paging
  import opened Bitmaps
  import opened MemoryState

  function SetUsed(pool: Pool, i: nat): Pool
    requires i < |pool.used|
  {
    pool.(used := pool.used[i := true])
  }

  /** Setting more frames aside disturbs nothing. */
  lemma MoreOwners(m: Mem, own: Owners, m': Mem, own': Owners)
    requires Consistent(m, own) && m' == m.(kernelPool := m'.kernelPool, userPool := m'.userPool)
    requires LayoutOk(m') && OwnersOk(m', own')
    requires forall f: nat :: f in own ==> f in own' && own'[f] == own[f]
    ensures Consistent(m', own')
  {
    Open(m, own);
    Close(m', own');
  }

  lemma TakeKernelFrame(m: Mem, own: Owners, i: nat, o: Owner)
    requires Consistent(m, own) && i < |m.kernelPool.used| && !m.kernelPool.used[i] && !o.UserPage?
    ensures m.kernelPool.start + i !in own && m.kernelPool.start + i < 0x10_0000
    ensures Consistent(m.(kernelPool := SetUsed(m.kernelPool, i)), own[m.kernelPool.start + i := o])
  {
    assert Holds(Layout, m, own) && Holds(Ownership, m, own);
    assert !InUse(m.kernelPool, m.kernelPool.start + i);
    var m', own' := m.(kernelPool := SetUsed(m.kernelPool, i)), own[m.kernelPool.start + i := o];
    assert OwnersOk(m', own');
    MoreOwners(m, own, m', own');
  }

  lemma TakeUserFrame(m: Mem, own: Owners, i: nat, o: Owner)
    requires Consistent(m, own) && i < |m.userPool.used| && !m.userPool.used[i] && o.UserPage?
    ensures m.userPool.start + i !in own && m.userPool.start + i < 0x10_0000
    ensures Consistent(m.(userPool := SetUsed(m.userPool, i)), own[m.userPool.start + i := o])
  {
    assert Holds(Layout, m, own) && Holds(Ownership, m, own);
    assert !InUse(m.userPool, m.userPool.start + i);
    var m', own' := m.(userPool := SetUsed(m.userPool, i)), own[m.userPool.start + i := o];
    assert OwnersOk(m', own');
    MoreOwners(m, own, m', own');
  }

  /** Directories and user tables are pool frames, kernel tables and the boot directory are not. */
  lemma Ranges(m: Mem, own: Owners)
    requires LayoutOk(m) && OwnersOk(m, own) && ProcsOk(m, own)
    ensures forall f: nat :: f in own ==> f >= 512
    ensures forall p :: 0 <= p < |m.procs| ==> m.procs[p].dir in own && own[m.procs[p].dir].KernelPage?
  {
  }

  lemma MapKernel(m: Mem, own: Owners, vpn: nat, f: FrameNo)
    requires Inv(m, own) && VirtUsed(m.kernelVirt, vpn) && f in own && own[f] == KernelPage(vpn)
    requires !Present(Rd(m.ram, KernelTable(vpn / 1024), vpn % 1024))
    ensures Inv(m.(ram := Wr(m.ram, KernelTable(vpn / 1024), vpn % 1024, Entry(f))), own)
  {
    var m' := m.(ram := Wr(m.ram, KernelTable(vpn / 1024), vpn % 1024, Entry(f)));
    MapKernelUpper(m, own, vpn, f);
    MapKernelEntries(m, own, vpn, f);
    assert forall g: FrameNo, i: Index :: g >= 512 ==> Rd(m'.ram, g, i) == Rd(m.ram, g, i);
    BelowKept(m, m', own);
  }

  lemma MapKernelUpper(m: Mem, own: Owners, vpn: nat, f: FrameNo)
    requires LayoutOk(m) && OwnersOk(m, own) && DirsOk(m, own) && ProcsOk(m, own) && VirtUsed(m.kernelVirt, vpn)
    requires !Present(Rd(m.ram, KernelTable(vpn / 1024), vpn % 1024))
    ensures var m' := m.(ram := Wr(m.ram, KernelTable(vpn / 1024), vpn % 1024, Entry(f)));
      DirsOk(m', own) && ProcsOk(m', own)
  {
    Ranges(m, own);
  }

  lemma MapKernelEntries(m: Mem, own: Owners, vpn: nat, f: FrameNo)
    requires LayoutOk(m) && KernelEntriesOk(m, own) && VirtUsed(m.kernelVirt, vpn) && f in own &&
      own[f] == KernelPage(vpn)
    ensures KernelEntriesOk(m.(ram := Wr(m.ram, KernelTable(vpn / 1024), vpn % 1024, Entry(f))), own)
  {
    var m' := m.(ram := Wr(m.ram, KernelTable(vpn / 1024), vpn % 1024, Entry(f)));
    forall i: Index, j: Index | KERNEL_PDE <= i < 1023 && i * 1024 + j >= KERNEL_HEAP &&
      Present(Rd(m'.ram, KernelTable(i), j))
      ensures var w := Rd(m'.ram, KernelTable(i), j);
        FrameOf(w) in own && own[FrameOf(w)] == KernelPage(i * 1024 + j) && VirtUsed(m.kernelVirt, i * 1024 + j)
    {
      if i == vpn / 1024 && j == vpn % 1024 {
        assert i * 1024 + j == vpn;
      }
    }
  }

  /** Changes below frame 512 do not concern user tables. */
  lemma BelowKept(m: Mem, m': Mem, own: Owners)
    requires Inv(m, own) && m'.procs == m.procs
    requires forall g: FrameNo, i: Index :: g >= 512 ==> Rd(m'.ram, g, i) == Rd(m.ram, g, i)
    ensures UserSlotsOk(m', own) && UserEntriesOk(m', own)
  {
    Ranges(m, own);
  }

  lemma AddTable(m: Mem, own: Owners, p: nat, i: Index, t: FrameNo)
    requires Inv(m, own) && p < |m.procs| && i < KERNEL_PDE && t in own && own[t] == Table(p, i)
    requires !Present(Rd(m.ram, m.procs[p].dir, i))
    ensures Inv(m.(ram := ZeroFrame(Wr(m.ram, m.procs[p].dir, i, Entry(t)), t)), own)
  {
    AddTableUpper(m, own, p, i, t);
    AddTableSlots(m, own, p, i, t);
  }

  /** Changes above frame 512 that spare the upper halves of the directories. */
  lemma UpperKept(m: Mem, m': Mem, own: Owners)
    requires LayoutOk(m) && OwnersOk(m, own) && DirsOk(m, own) && ProcsOk(m, own) && KernelEntriesOk(m, own)
    requires m' == m.(ram := m'.ram) && forall g: FrameNo, i: Index :: g < 512 ==> Rd(m'.ram, g, i) == Rd(m.ram, g, i)
    requires forall p, i: Index :: 0 <= p < |m.procs| && i >= KERNEL_PDE ==>
      Rd(m'.ram, m.procs[p].dir, i) == Rd(m.ram, m.procs[p].dir, i)
    ensures DirsOk(m', own) && ProcsOk(m', own) && KernelEntriesOk(m', own)
  {
  }

  lemma AddTableUpper(m: Mem, own: Owners, p: nat, i: Index, t: FrameNo)
    requires LayoutOk(m) && OwnersOk(m, own) && DirsOk(m, own) && ProcsOk(m, own) && KernelEntriesOk(m, own)
    requires p < |m.procs| && i < KERNEL_PDE && t in own && own[t] == Table(p, i)
    ensures var m' := m.(ram := ZeroFrame(Wr(m.ram, m.procs[p].dir, i, Entry(t)), t));
      DirsOk(m', own) && ProcsOk(m', own) && KernelEntriesOk(m', own)
  {
    assert m.procs[p].dir >= 512 && t >= 512;
    forall q | 0 <= q < |m.procs| ensures m.procs[q].dir != t {
      OtherDir(m, own, p, q, t);
    }
    UpperKept(m, m.(ram := ZeroFrame(Wr(m.ram, m.procs[p].dir, i, Entry(t)), t)), own);
  }

  lemma AddTableSlots(m: Mem, own: Owners, p: nat, i: Index, t: FrameNo)
    requires ProcsOk(m, own) && UserSlotsOk(m, own) && UserEntriesOk(m, own)
    requires p < |m.procs| && i < KERNEL_PDE && t in own && own[t] == Table(p, i)
    requires !Present(Rd(m.ram, m.procs[p].dir, i))
    ensures var m' := m.(ram := ZeroFrame(Wr(m.ram, m.procs[p].dir, i, Entry(t)), t));
      UserSlotsOk(m', own) && UserEntriesOk(m', own)
  {
    var ram' := ZeroFrame(Wr(m.ram, m.procs[p].dir, i, Entry(t)), t);
    forall q, k: Index | 0 <= q < |m.procs| && k < KERNEL_PDE
      ensures Rd(ram', m.procs[q].dir, k) == if q == p && k == i then Entry(t) else Rd(m.ram, m.procs[q].dir, k)
    {
      OtherDir(m, own, p, q, t);
    }
    AddTableEntries(m, own, p, i, t, ram');
  }

  lemma OtherDir(m: Mem, own: Owners, p: nat, q: nat, t: FrameNo)
    requires ProcsOk(m, own) && p < |m.procs| && q < |m.procs| && t in own && own[t].Table?
    ensures m.procs[q].dir != t && (q != p ==> m.procs[q].dir != m.procs[p].dir)
  {
  }

  lemma AddTableEntries(m: Mem, own: Owners, p: nat, i: Index, t: FrameNo, ram': Ram)
    requires ProcsOk(m, own) && UserSlotsOk(m, own) && UserEntriesOk(m, own)
    requires p < |m.procs| && i < KERNEL_PDE && t in own && own[t] == Table(p, i)
    requires !Present(Rd(m.ram, m.procs[p].dir, i))
    requires ram' == ZeroFrame(Wr(m.ram, m.procs[p].dir, i, Entry(t)), t)
    requires forall q, k: Index :: 0 <= q < |m.procs| && k < KERNEL_PDE ==>
      Rd(ram', m.procs[q].dir, k) == if q == p && k == i then Entry(t) else Rd(m.ram, m.procs[q].dir, k)
    ensures UserEntriesOk(m.(ram := ram'), own)
  {
    forall q, k: Index, j: Index | 0 <= q < |m.procs| && k < KERNEL_PDE && Present(Rd(ram', m.procs[q].dir, k)) &&
        Present(Rd(ram', FrameOf(Rd(ram', m.procs[q].dir, k)), j))
      ensures var w := Rd(ram', FrameOf(Rd(ram', m.procs[q].dir, k)), j);
        && FrameOf(w) in own && own[FrameOf(w)] == UserPage(q, k * 1024 + j)
        && VirtUsed(m.procs[q].virt, k * 1024 + j) && Permits(w)
    {
      var e := Rd(ram', m.procs[q].dir, k);
      assert FrameOf(e) != t;
      assert e == Rd(m.ram, m.procs[q].dir, k) && own[FrameOf(e)] == Table(q, k);
      assert Rd(ram', FrameOf(e), j) == Rd(m.ram, FrameOf(e), j);
    }
  }

  lemma TableWritten(m: Mem, own: Owners, p: nat, t: FrameNo, j: Index, w: Word)
    requires LayoutOk(m) && OwnersOk(m, own) && DirsOk(m, own) && ProcsOk(m, own) && KernelEntriesOk(m, own)
    requires p < |m.procs| && t in own && own[t].Table?
    ensures var m' := m.(ram := Wr(m.ram, t, j, w)); DirsOk(m', own) && ProcsOk(m', own) && KernelEntriesOk(m', own)
  {
    assert t >= 512;
    forall q | 0 <= q < |m.procs| ensures m.procs[q].dir != t {
      OtherDir(m, own, p, q, t);
    }
    UpperKept(m, m.(ram := Wr(m.ram, t, j, w)), own);
  }

  lemma MapUser(m: Mem, own: Owners, p: nat, vpn: nat, f: FrameNo)
    requires Inv(m, own) && p < |m.procs| && VirtUsed(m.procs[p].virt, vpn) && f in own && own[f] == UserPage(p, vpn)
    requires vpn / 1024 < KERNEL_PDE && Present(Rd(m.ram, m.procs[p].dir, vpn / 1024))
    ensures Inv(m.(ram := Wr(m.ram, FrameOf(Rd(m.ram, m.procs[p].dir, vpn / 1024)), vpn % 1024, Entry(f))), own)
  {
    var t := FrameOf(Rd(m.ram, m.procs[p].dir, vpn / 1024));
    var m' := m.(ram := Wr(m.ram, t, vpn % 1024, Entry(f)));
    assert t in own && own[t] == Table(p, vpn / 1024);
    TableWritten(m, own, p, t, vpn % 1024, Entry(f));
    MapUserEntries(m, own, p, vpn, f, t);
  }

  lemma MapUserEntries(m: Mem, own: Owners, p: nat, vpn: nat, f: FrameNo, t: FrameNo)
    requires ProcsOk(m, own) && UserSlotsOk(m, own) && UserEntriesOk(m, own)
    requires p < |m.procs| && VirtUsed(m.procs[p].virt, vpn) && f in own && own[f] == UserPage(p, vpn)
    requires vpn / 1024 < KERNEL_PDE && t in own && own[t] == Table(p, vpn / 1024)
    ensures var m' := m.(ram := Wr(m.ram, t, vpn % 1024, Entry(f))); UserSlotsOk(m', own) && UserEntriesOk(m', own)
  {
    var ram' := Wr(m.ram, t, vpn % 1024, Entry(f));
    forall q, k: Index | 0 <= q < |m.procs| && k < KERNEL_PDE
      ensures Rd(ram', m.procs[q].dir, k) == Rd(m.ram, m.procs[q].dir, k)
    {
      OtherDir(m, own, p, q, t);
    }
    forall q, k: Index, j: Index | 0 <= q < |m.procs| && k < KERNEL_PDE && Present(Rd(ram', m.procs[q].dir, k)) &&
        Present(Rd(ram', FrameOf(Rd(ram', m.procs[q].dir, k)), j))
      ensures var w := Rd(ram', FrameOf(Rd(ram', m.procs[q].dir, k)), j);
        FrameOf(w) in own && own[FrameOf(w)] == UserPage(q, k * 1024 + j) && VirtUsed(m.procs[q].virt, k * 1024 + j)
    {
      var e := Rd(m.ram, m.procs[q].dir, k);
      assert own[FrameOf(e)] == Table(q, k);
      if FrameOf(e) == t && j == vpn % 1024 {
        assert q == p && k * 1024 + j == vpn;
      } else {
        assert Rd(ram', FrameOf(e), j) == Rd(m.ram, FrameOf(e), j);
      }
    }
  }

  /** A frame that is data: not a table, not a directory. */
  predicate IsData(m: Mem, own: Owners, f: FrameNo) {
    f in own && !own[f].Table? && forall p :: 0 <= p < |m.procs| ==> m.procs[p].dir != f
  }

  lemma ZeroData(m: Mem, own: Owners, f: FrameNo)
    requires Consistent(m, own) && IsData(m, own, f)
    ensures Consistent(m.(ram := ZeroFrame(m.ram, f)), own)
  {
    DataChanged(m, own, ZeroFrame(m.ram, f), f);
  }

  /** Nothing the invariant says depends on the words of a data frame. */
  lemma DataChanged(m: Mem, own: Owners, ram: Ram, f: FrameNo)
    requires Consistent(m, own) && IsData(m, own, f)
    requires forall g: FrameNo, i: Index :: g != f ==> Rd(ram, g, i) == Rd(m.ram, g, i)
    ensures Consistent(m.(ram := ram), own)
  {
    Open(m, own);
    Ranges(m, own);
    var m' := m.(ram := ram);
    UpperKept(m, m', own);
    DataChangedUser(m, own, ram, f);
    Close(m', own);
  }

  lemma DataChangedUser(m: Mem, own: Owners, ram: Ram, f: FrameNo)
    requires UserSlotsOk(m, own) && UserEntriesOk(m, own) && IsData(m, own, f)
    requires forall g: FrameNo, i: Index :: g != f ==> Rd(ram, g, i) == Rd(m.ram, g, i)
    ensures UserSlotsOk(m.(ram := ram), own) && UserEntriesOk(m.(ram := ram), own)
  {
    forall p, i: Index | 0 <= p < |m.procs| && i < KERNEL_PDE
      ensures Rd(ram, m.procs[p].dir, i) == Rd(m.ram, m.procs[p].dir, i)
    {
    }
  }

  lemma MarkKernelVirt(m: Mem, own: Owners, v: Virt)
    requires Consistent(m, own) && v.start == m.kernelVirt.start && |v.used| == |m.kernelVirt.used|
    requires forall i :: 0 <= i < |v.used| ==> m.kernelVirt.used[i] ==> v.used[i]
    ensures Consistent(m.(kernelVirt := v), own)
  {
    Open(m, own);
    Close(m.(kernelVirt := v), own);
  }

  lemma MarkUserVirt(m: Mem, own: Owners, p: nat, v: Virt)
    requires Consistent(m, own) && p < |m.procs| && v.start == m.procs[p].virt.start &&
      |v.used| == |m.procs[p].virt.used|
    requires forall i :: 0 <= i < |v.used| ==> m.procs[p].virt.used[i] ==> v.used[i]
    ensures Consistent(m.(procs := m.procs[p := m.procs[p].(virt := v)]), own)
  {
    Open(m, own);
    var m' := m.(procs := m.procs[p := m.procs[p].(virt := v)]);
    MarkedUpper(m, own, m');
    MarkedUser(m, own, m');
    Close(m', own);
  }

  lemma MarkedUpper(m: Mem, own: Owners, m': Mem)
    requires DirsOk(m, own) && ProcsOk(m, own) && m' == m.(procs := m'.procs) && |m'.procs| == |m.procs|
    requires forall q :: 0 <= q < |m.procs| ==>
      m'.procs[q].dir == m.procs[q].dir && m'.procs[q].dirPage == m.procs[q].dirPage
    ensures DirsOk(m', own) && ProcsOk(m', own)
  {
  }

  lemma MarkedUser(m: Mem, own: Owners, m': Mem)
    requires UserSlotsOk(m, own) && UserEntriesOk(m, own) && m' == m.(procs := m'.procs) && |m'.procs| == |m.procs|
    requires forall q :: 0 <= q < |m.procs| ==> m'.procs[q].dir == m.procs[q].dir
    requires forall q, vpn: nat :: 0 <= q < |m.procs| && VirtUsed(m.procs[q].virt, vpn) ==>
      VirtUsed(m'.procs[q].virt, vpn)
    ensures UserSlotsOk(m', own) && UserEntriesOk(m', own)
  {
  }

  /** The state after boot: nothing is used, nothing is owned. */
  lemma BootConsistent(m: Mem)
    requires LayoutOk(m) && m.procs == [] && KernelHalf(m.ram, BOOT_DIR) && Rd(m.ram, BOOT_DIR, 0) == Entry(FIRST_TABLE)
    requires forall i: Index :: 0 < i < KERNEL_PDE ==> Rd(m.ram, BOOT_DIR, i) == 0
    requires forall j: Index :: j < 256 ==> Rd(m.ram, FIRST_TABLE, j) == Entry(j)
    requires forall t: FrameNo, j: Index :: FIRST_TABLE <= t < 512 && (t > FIRST_TABLE || j >= 256) ==>
      !Present(Rd(m.ram, t, j))
    requires forall i :: 0 <= i < |m.kernelPool.used| ==> !m.kernelPool.used[i]
    requires forall i :: 0 <= i < |m.userPool.used| ==> !m.userPool.used[i]
    ensures Consistent(m, map[])
  {
    Close(m, map[]);
  }

  /** Writing a word of a data frame. */
  lemma WriteData(m: Mem, own: Owners, f: FrameNo, i: Index, w: Word)
    requires Consistent(m, own) && IsData(m, own, f)
    ensures Consistent(m.(ram := Wr(m.ram, f, i, w)), own)
  {
    DataChanged(m, own, Wr(m.ram, f, i, w), f);
  }

  /** A kernel page with the kernel's half and nothing below becomes a process's directory. */
  lemma AddProcess(m: Mem, own: Owners, pr: Process)
    requires Consistent(m, own) && IsData(m, own, pr.dir) && own[pr.dir] == KernelPage(pr.dirPage)
    requires KERNEL_HEAP <= pr.dirPage < 1023 * 1024
    requires LeadsTo(Rd(m.ram, KernelTable(pr.dirPage / 1024), pr.dirPage % 1024), pr.dir)
    requires KernelHalf(m.ram, pr.dir) && forall i: Index :: i < KERNEL_PDE ==> Rd(m.ram, pr.dir, i) == 0
    requires pr.virt.start == USER_START && USER_START + |pr.virt.used| == USER_END + 1
    ensures Consistent(m.(procs := m.procs + [pr]), own)
  {
    Open(m, own);
    var m' := m.(procs := m.procs + [pr]);
    AddedUser(m, own, pr);
    AddedUpper(m, own, pr);
    Close(m', own);
  }

  lemma AddedUpper(m: Mem, own: Owners, pr: Process)
    requires LayoutOk(m) && DirsOk(m, own) && ProcsOk(m, own) && KernelHalf(m.ram, pr.dir)
    requires IsData(m, own, pr.dir) && own[pr.dir] == KernelPage(pr.dirPage) && KERNEL_HEAP <= pr.dirPage < 1023 * 1024
    requires LeadsTo(Rd(m.ram, KernelTable(pr.dirPage / 1024), pr.dirPage % 1024), pr.dir)
    requires pr.virt.start == USER_START && USER_START + |pr.virt.used| == USER_END + 1
    ensures var m' := m.(procs := m.procs + [pr]); LayoutOk(m') && DirsOk(m', own) && ProcsOk(m', own)
  {
  }

  lemma AddedUser(m: Mem, own: Owners, pr: Process)
    requires UserSlotsOk(m, own) && UserEntriesOk(m, own)
    requires forall i: Index :: i < KERNEL_PDE ==> Rd(m.ram, pr.dir, i) == 0
    ensures UserSlotsOk(m.(procs := m.procs + [pr]), own) && UserEntriesOk(m.(procs := m.procs + [pr]), own)
  {
    var procs' := m.procs + [pr];
    forall p, i: Index | 0 <= p < |procs'| && i < KERNEL_PDE && Present(Rd(m.ram, procs'[p].dir, i))
      ensures p < |m.procs| && procs'[p] == m.procs[p]
    {
    }
  }
}
