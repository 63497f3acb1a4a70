/** process.c: new address spaces and switching between them. */
module Processes {
  import opened Common
  import opened Paging
  import opened Bitmaps
  import opened MemoryState
  import opened MemoryOps
  import opened BindPage
  import opened Allocator
  import opened Accounting

  /** process.c:76-77, memcpy of the upper quarter of the current directory, read through the
      self-map, to the new page. */
  method CopyKernelHalf(k: Memory, page: FrameNo, ghost f: FrameNo)
    requires k.Valid() && KERNEL_HEAP <= page < 1023 * 1024
    requires Walk(k.ram, k.cr3, PageVa(page)) == Some(f) && IsData(k.M(), k.own, f)
    modifies k`ram
    ensures k.Valid() && Walk(k.ram, k.cr3, PageVa(page)) == Some(f)
    ensures forall i: Index ::
      Rd(k.ram, f, i) == if i < KERNEL_PDE then Rd(old(k.ram), f, i) else Rd(old(k.ram), k.cr3, i)
    ensures forall g: FrameNo, i: Index :: g != f ==> Rd(k.ram, g, i) == Rd(old(k.ram), g, i)
  {
    var i := 0x300;
    while i < 0x300 + 1024 / 4
      invariant 0x300 <= i <= 1024
      invariant k.Valid() && Walk(k.ram, k.cr3, PageVa(page)) == Some(f)
      invariant forall j: Index ::
        Rd(k.ram, f, j) == if KERNEL_PDE <= j < i then Rd(old(k.ram), k.cr3, j) else Rd(old(k.ram), f, j)
      invariant forall g: FrameNo, j: Index :: g != f ==> Rd(k.ram, g, j) == Rd(old(k.ram), g, j)
    {
      CopyWord(k, page, i, f);
      i := i + 1;
    }
  }

  /** One word of the copy. */
  method CopyWord(k: Memory, page: FrameNo, i: Index, ghost f: FrameNo)
    requires k.Valid() && KERNEL_HEAP <= page < 1023 * 1024
    requires Walk(k.ram, k.cr3, PageVa(page)) == Some(f) && IsData(k.M(), k.own, f)
    modifies k`ram
    ensures k.Valid() && k.ram == Wr(old(k.ram), f, i, Rd(old(k.ram), k.cr3, i)) && k.cr3 != f
    ensures Walk(k.ram, k.cr3, PageVa(page)) == Some(f)
  {
    DirShape(k.M(), k.own, k.cur);
    DirectoryWord(k.ram, k.cr3, i);
    var w := k.Load(0xffff_f000 + i * 4);
    PutWord(k, page, i, w, f);
  }

  method PutWord(k: Memory, page: FrameNo, i: Index, w: Word, ghost f: FrameNo)
    requires k.Valid() && Walk(k.ram, k.cr3, PageVa(page)) == Some(f) && IsData(k.M(), k.own, f)
    modifies k`ram
    ensures k.Valid() && k.ram == Wr(old(k.ram), f, i, w) && k.cr3 != f
    ensures Walk(k.ram, k.cr3, PageVa(page)) == Some(f)
  {
    WritePageWord(k.M(), k.own, k.cur, page, f, i, w);
    k.Store(page * PAGE + i * 4, w);
  }

  /** The self-map shows word i of the current directory at 0xfffff000 + 4 i. */
  lemma DirectoryWord(ram: Ram, dir: FrameNo, i: Index)
    requires SelfMapped(ram, dir)
    ensures Walk(ram, dir, 0xffff_f000 + i * 4) == Some(dir) && WordIdx(0xffff_f000 + i * 4) == i
  {
    assert 0xffff_f000 + i * 4 == AddressOf(1023, 1023, i);
    Split(1023, 1023, i);
  }

  /** process.c:68-83. A success returns the page of a new directory: empty below the kernel,
      the current directory's kernel entries above, itself at the end. */
  method CreatePageDir(k: Memory) returns (out: Allocation, ghost f: FrameNo)
    requires k.Valid()
    modifies k`ram, k`kernelPool, k`userPool, k`kernelVirt, k`procs, k`own
    ensures out == Null ==> k.Valid() && k.M() == old(k.M()) && k.own == old(k.own)
    ensures out.Pages? <==> Grants(old(k.M()), k.cr3, KERNEL_POOL, k.cur, 1)
    ensures out.Pages? ==> k.Valid() && IsNewDir(k.M(), k.own, out.va / PAGE, f)
    ensures out.Pages? ==> forall v: Word :: Walk(k.ram, f, v).Some? ==> UserAccess(k.ram, f, v)
    ensures out.Pages? ==> KeepsWalks(old(k.M()), k.ram) && UserKept(old(k.M()), k.ram)
    ensures out.Pages? ==> AllocatedAt(old(k.M()), k.M(), KERNEL_POOL, k.cur, k.cr3, 1, out.va)
  {
    ghost var frames;
    out, frames := k.MallocPages(KERNEL_POOL, 1);
    f := 0;
    if out.Pages? {
      f := frames[0];
      KernelPageDelivered(old(k.M()), old(k.own), k.M(), k.own, k.cur, out.va / PAGE, frames);
      ghost var m := k.M();
      FinishPageDir(k, out.va / PAGE, f);
      KeepsAfterData(old(k.M()), m, k.own, k.ram, f);
      NewDirOpen(k.M(), k.own, out.va / PAGE, f);
    }
  }

  lemma NewDirOpen(m: Mem, own: Owners, page: nat, f: FrameNo)
    requires Consistent(m, own) && IsNewDir(m, own, page, f)
    ensures forall v: Word :: Walk(m.ram, f, v).Some? ==> UserAccess(m.ram, f, v)
  {
    Open(m, own);
    forall v: Word ensures Walk(m.ram, f, v).Some? ==> UserAccess(m.ram, f, v) {
      NewDirPermits(m, own, f, v);
    }
  }

  /** A kernel page made into a directory nobody uses yet. */
  ghost predicate IsNewDir(m: Mem, own: Owners, page: nat, f: FrameNo) {
    && KERNEL_HEAP <= page < 1023 * 1024 && IsData(m, own, f) && own[f] == KernelPage(page)
    && LeadsTo(Rd(m.ram, KernelTable(page / 1024), page % 1024), f)
    && KernelHalf(m.ram, f) && forall i: Index :: i < KERNEL_PDE ==> Rd(m.ram, f, i) == 0
  }

  method FinishPageDir(k: Memory, page: FrameNo, ghost f: FrameNo)
    requires k.Valid() && KERNEL_HEAP <= page < 1023 * 1024
    requires Walk(k.ram, k.cr3, PageVa(page)) == Some(f) && IsData(k.M(), k.own, f) && k.own[f] == KernelPage(page)
    requires Cleared(k.ram, f)
    modifies k`ram
    ensures k.Valid() && IsNewDir(k.M(), k.own, page, f)
    ensures forall g: FrameNo, i: Index :: g != f ==> Rd(k.ram, g, i) == Rd(old(k.ram), g, i)
  {
    DirShape(k.M(), k.own, k.cur);
    CopyKernelHalf(k, page, f);
    var phys := VaddrToPaddr(k.ram, k.cr3, PageVa(page));
    VaddrToPaddrIsWalk(k.ram, k.cr3, PageVa(page));
    PutWord(k, page, 1023, phys.value + 7, f);
    KernelEntry(k.M(), k.own, k.cur, page, f);
  }

  /** The kernel's flags after the three allocations of process_execute: control block, user
      bitmap, directory. */
  function Took(used: seq<bool>): (r: Option<seq<bool>>)
    requires used != []
  {
    var two := TookTwo(used);
    if two == None then None else Take(two.value, 1)
  }

  function TookTwo(used: seq<bool>): (r: Option<seq<bool>>)
    requires used != []
    ensures r.Some? ==> |r.value| == |used|
  {
    var one := Take(used, 1);
    if one == None then None else Take(one.value, 23)
  }

  /** When process_execute succeeds. */
  predicate ExecuteFits(m: Mem) {
    m.kernelVirt.used != [] && Took(m.kernelVirt.used).Some? && Clear(m.kernelPool.used) >= 25
  }

  /** n kernel pages have been taken and nothing else. */
  predicate KernelTaken(m: Mem, m': Mem, n: nat) {
    Clear(m'.kernelPool.used) == Clear(m.kernelPool.used) - n && Clear(m'.userPool.used) == Clear(m.userPool.used)
  }

  /** A process just made: its bitmap is empty, and nothing is mapped below the kernel. The byte
      behind the bitmap is in the pages just cleared, so the bit there is clear too. */
  ghost predicate NewProcess(m: Mem, m': Mem) {
    && |m'.procs| == |m.procs| + 1 && m'.procs[..|m.procs|] == m.procs
    && m'.procs[|m.procs|].virt == Virt(USER_START, NoneUsed(USER_END - USER_START + 1))
    && forall v: Word :: PdeIdx(v) < KERNEL_PDE ==> Walk(m'.ram, m'.procs[|m.procs|].dir, v) == None
  }

  /** process.c:85-109, up to the scheduler lists: exactly when it succeeds. Otherwise the
      machine halts, or the source goes on to use a NULL. */
  method ProcessExecute(k: Memory) returns (ok: bool)
    requires k.Valid()
    modifies k`ram, k`kernelPool, k`userPool, k`kernelVirt, k`procs, k`own
    ensures ok <==> ExecuteFits(old(k.M()))
    ensures ok ==>
      k.Valid() && KeepsWalks(old(k.M()), k.ram) && UserKept(old(k.M()), k.ram) && NewProcess(old(k.M()), k.M())
    ensures ok ==> KernelTaken(old(k.M()), k.M(), 25)
    ensures ok ==> k.kernelVirt == old(k.kernelVirt).(used := Took(old(k.kernelVirt).used).value)
  {
    var bitmapLength := (0xc000_0000 - 0x804_8000) / PAGE / 8;
    ok := ControlPages(k, (bitmapLength + PAGE - 1) / PAGE);
    if ok {
      ghost var m := k.M();
      ok := NewAddressSpace(k, 8 * bitmapLength);
      if ok {
        KeepsTwice(old(k.M()), m, k.ram);
      }
    }
  }

  /** The pages for the control block and the bitmap (process.c:86, 90). */
  method ControlPages(k: Memory, n: nat) returns (ok: bool)
    requires k.Valid() && n == 23
    modifies k`ram, k`kernelPool, k`userPool, k`kernelVirt, k`procs, k`own
    ensures old(k.kernelVirt).used != []
    ensures ok <==> TookTwo(old(k.kernelVirt).used).Some? && Clear(old(k.kernelPool).used) >= 24
    ensures ok ==> k.Valid() && KeepsWalks(old(k.M()), k.ram) && UserKept(old(k.M()), k.ram) && k.procs == old(k.procs)
    ensures ok ==> KernelTaken(old(k.M()), k.M(), 24)
    ensures ok ==> k.kernelVirt == old(k.kernelVirt).(used := TookTwo(old(k.kernelVirt).used).value)
  {
    ok := KernelPages(k, 1);
    if ok {
      ghost var m := k.M();
      ok := KernelPages(k, n);
      if ok {
        KeepsTwice(old(k.M()), m, k.ram);
      }
    }
  }

  /** A kernel allocation whose address is kept elsewhere. */
  method KernelPages(k: Memory, n: nat) returns (ok: bool)
    requires k.Valid() && 0 < n < 3840
    modifies k`ram, k`kernelPool, k`userPool, k`kernelVirt, k`procs, k`own
    ensures old(k.kernelVirt).used != []
    ensures ok <==> Take(old(k.kernelVirt).used, n).Some? && Clear(old(k.kernelPool).used) >= n
    ensures ok ==> k.Valid() && KeepsWalks(old(k.M()), k.ram) && UserKept(old(k.M()), k.ram) && k.procs == old(k.procs)
    ensures ok ==> KernelTaken(old(k.M()), k.M(), n)
    ensures ok ==> k.kernelVirt == old(k.kernelVirt).(used := Take(old(k.kernelVirt).used, n).value)
  {
    KernelGrants(k.M(), k.own, k.cur, n);
    ghost var m, own := k.M(), k.own;
    ghost var frames;
    var out;
    out, frames := k.MallocPages(KERNEL_POOL, n);
    ok := out.Pages?;
    if ok {
      KernelAllocated(m, own, k.M(), k.own, k.cur, n, out.va, frames);
    }
  }

  /** What a granted kernel allocation has done. */
  lemma KernelAllocated(m: Mem, own: Owners, m': Mem, own': Owners, cur: int, n: nat, va: Word, frames: seq<FrameNo>)
    requires Consistent(m, own) && -1 <= cur < |m.procs| && Grants(m, DirOf(m, cur), KERNEL_POOL, cur, n)
    requires AllocatedAt(m, m', KERNEL_POOL, cur, DirOf(m, cur), n, va) && KERNEL_HEAP <= va / PAGE && |frames| == n
    requires Delivered(m, own, m'.ram, own', cur, va / PAGE, frames)
    ensures m.kernelVirt.used != [] && m'.procs == m.procs && KernelTaken(m, m', n)
    ensures KeepsWalks(m, m'.ram) && UserKept(m, m'.ram)
    ensures Take(m.kernelVirt.used, n).Some?
    ensures m'.kernelVirt == m.kernelVirt.(used := Take(m.kernelVirt.used, n).value)
  {
    KernelGrants(m, own, cur, n);
    FilledHas(m, m'.ram, cur, va / PAGE, frames);
    KernelAbove(m, m'.ram, DirOf(m, cur), va / PAGE, n);
  }

  /** process.c:101: the new process's directory; its fields are filled in at the end. */
  method NewAddressSpace(k: Memory, bits: nat) returns (ok: bool)
    requires k.Valid() && USER_START + bits == USER_END
    modifies k`ram, k`kernelPool, k`userPool, k`kernelVirt, k`procs, k`own
    ensures old(k.kernelVirt).used != []
    ensures ok <==> Take(old(k.kernelVirt).used, 1).Some? && Clear(old(k.kernelPool).used) >= 1
    ensures ok ==>
      k.Valid() && KeepsWalks(old(k.M()), k.ram) && UserKept(old(k.M()), k.ram) && NewProcess(old(k.M()), k.M())
    ensures ok ==> KernelTaken(old(k.M()), k.M(), 1)
    ensures ok ==> k.kernelVirt == old(k.kernelVirt).(used := Take(old(k.kernelVirt).used, 1).value)
  {
    KernelGrants(k.M(), k.own, k.cur, 1);
    var dir, f := CreatePageDir(k);
    ok := dir.Pages?;
    if ok {
      assert KernelTaken(old(k.M()), k.M(), 1);
      Register(k, dir.va / PAGE, f, bits);
    }
  }

  /** The processes of m are still there, with their directories. */
  ghost predicate DirsKept(m: Mem, m': Mem) {
    |m.procs| <= |m'.procs| && forall p :: 0 <= p < |m.procs| ==> m'.procs[p].dir == m.procs[p].dir
  }

  lemma KeepsTwice(start: Mem, m: Mem, ram: Ram)
    requires KeepsWalks(start, m.ram) && KeepsWalks(m, ram) && DirsKept(start, m)
    ensures KeepsWalks(start, ram)
    ensures UserKept(start, m.ram) && UserKept(m, ram) ==> UserKept(start, ram)
  {
    forall d: FrameNo | IsDir(start, d) ensures IsDir(m, d) {}
    forall d: FrameNo, va: Word | IsDir(start, d) && Walk(start.ram, d, va).Some?
      ensures Walk(ram, d, va) == Walk(start.ram, d, va)
    {
      assert IsDir(m, d);
    }
  }

  /** The new process's fields (process.c:86-93, 101). */
  method Register(k: Memory, page: FrameNo, ghost f: FrameNo, bits: nat)
    requires k.Valid() && IsNewDir(k.M(), k.own, page, f) && USER_START + bits == USER_END
    modifies k`procs
    ensures k.Valid() && NewProcess(old(k.M()), k.M())
  {
    DirShape(k.M(), k.own, k.cur);
    KernelEntry(k.M(), k.own, k.cur, page, f);
    VaddrToPaddrIsWalk(k.ram, k.cr3, PageVa(page));
    var phys := VaddrToPaddr(k.ram, k.cr3, PageVa(page));
    var pr := Process(page, phys.value / PAGE, Virt(USER_START, NoneUsed(bits + 1)));
    AddProcess(k.M(), k.own, pr);
    k.procs := k.procs + [pr];
  }

  /** process.c:48-59: the directory of process p, or for -1 of a kernel thread, is found through
      whatever address space is in use, and it is the right one. */
  method PageDirActivate(k: Memory, p: int)
    requires k.Valid() && -1 <= p < |k.procs|
    modifies k`cr3, k`cur
    ensures k.Valid() && k.cur == p
  {
    var pagedirPhyAddr: Word := 0x10_0000;
    if p >= 0 {
      Open(k.M(), k.own);
      var page := k.procs[p].dirPage;
      KernelEntry(k.M(), k.own, k.cur, page, k.procs[p].dir);
      DirShape(k.M(), k.own, k.cur);
      VaddrToPaddrIsWalk(k.ram, k.cr3, PageVa(page));
      var found := VaddrToPaddr(k.ram, k.cr3, PageVa(page));
      pagedirPhyAddr := found.value;
    }
    k.cr3 := pagedirPhyAddr / PAGE;
    k.cur := p;
  }
}
