/** mem_pool_init: how memory above 2 MB is divided, and where the three bitmaps lie. */
module PoolLayout {
  import opened Common

  /** memory.c:14. */
  const MEM_BITMAP_BASE: nat := 0xc009_a000
  /** Page tables and kernel image take the first 2 MB (memory.c:45-48). */
  const USED_MEM: nat := 0x20_0000
  /** Where main's control block begins: its stack pointer starts at 0xc009f000
      (loader.asm:147) and running_thread masks it to a page (thread.c:20-24). */
  const MAIN_BLOCK: nat := 0xc009_e000

  datatype PoolInfo = PoolInfo(start: nat, size: nat, bits: nat, length: nat)
  datatype Layout = Layout(kernel: PoolInfo, user: PoolInfo, vaddrBits: nat, vaddrLength: nat)

  /** Every bit of a pool's bitmap names a page wholly inside the pool, and fewer than eight
      pages of the pool have no bit. */
  predicate BitsFit(p: PoolInfo) {
    8 * p.length * PAGE <= p.size < (8 * p.length + 8) * PAGE
  }

  /** memory.c:51-52: the pages above 2 MB, in a u16. */
  function FreePages(allMem: nat): nat {
    (allMem - USED_MEM) % 0x1_0000_0000 / PAGE % 0x1_0000
  }

  /** A pool of n pages, and its bitmap. */
  lemma PagesFit(start: nat, n: nat, bits: nat)
    ensures BitsFit(PoolInfo(start, n * PAGE, bits, n / 8)) && n * PAGE % PAGE == 0
  {
  }

  /** The u16 keeps the number of free pages if and only if it fits; the pages fit in memory. */
  lemma FreePagesFit(allMem: nat)
    requires allMem < 0x1_0000_0000
    ensures FreePages(allMem) <= 0xffff
    ensures USED_MEM <= allMem ==>
      && USED_MEM + FreePages(allMem) * PAGE <= allMem
      && (FreePages(allMem) == (allMem - USED_MEM) / PAGE <==> (allMem - USED_MEM) / PAGE <= 0xffff)
  {
    if USED_MEM <= allMem {
      var free := allMem - USED_MEM;
      assert free % 0x1_0000_0000 == free;
      Truncated(free / PAGE);
    }
  }

  lemma Truncated(n: nat)
    ensures n % 0x1_0000 <= n && (n % 0x1_0000 == n <==> n <= 0xffff)
  {
  }

  lemma Halves(n: nat)
    ensures n - n / 2 == (n + 1) / 2 && n / 2 <= n - n / 2 <= n / 2 + 1
  {
  }

  /** memory.c:43-84, with the u32 subtraction and the u16 page counts. */
  method MemPoolInit(allMem: nat) returns (l: Layout)
    requires allMem < 0x1_0000_0000
    ensures l.kernel.start == USED_MEM && l.user.start == l.kernel.start + l.kernel.size
    ensures l.kernel.size <= l.user.size <= l.kernel.size + PAGE && l.user.size % PAGE == l.kernel.size % PAGE == 0
    ensures BitsFit(l.kernel) && BitsFit(l.user) && l.vaddrLength == l.kernel.length
    ensures l.kernel.bits == MEM_BITMAP_BASE && l.user.bits == l.kernel.bits + l.kernel.length
    ensures l.vaddrBits == l.user.bits + l.user.length && l.vaddrBits + l.vaddrLength <= MAIN_BLOCK
    ensures l.user.start + l.user.size <= allMem <==> USED_MEM <= allMem
    ensures USED_MEM <= allMem ==>
      (l.kernel.size + l.user.size == (allMem - USED_MEM) / PAGE * PAGE <==> (allMem - USED_MEM) / PAGE <= 0xffff)
    ensures l.user.start + l.user.size < 0x1_0000_0000
    ensures l.kernel.length == FreePages(allMem) / 2 / 8 && l.kernel.size == FreePages(allMem) / 2 * PAGE
    ensures l.user.length == (FreePages(allMem) + 1) / 2 / 8
  {
    var pageTableSize := PAGE * 256;
    var usedMem := pageTableSize + 0x10_0000;
    var freeMem := (allMem - usedMem) % 0x1_0000_0000;
    var allFreePages := freeMem / PAGE % 0x1_0000;
    assert allFreePages == FreePages(allMem);
    var kernelFreePages := allFreePages / 2;
    var userFreePages := allFreePages - kernelFreePages;
    FreePagesFit(allMem);
    Halves(allFreePages);
    PagesFit(usedMem, kernelFreePages, MEM_BITMAP_BASE);
    PagesFit(usedMem + kernelFreePages * PAGE, userFreePages, MEM_BITMAP_BASE + kernelFreePages / 8);

    var kernel := PoolInfo(usedMem, kernelFreePages * PAGE, MEM_BITMAP_BASE, kernelFreePages / 8);
    var user := PoolInfo(usedMem + kernelFreePages * PAGE, userFreePages * PAGE,
                         MEM_BITMAP_BASE + kernelFreePages / 8, userFreePages / 8);
    l := Layout(kernel, user, MEM_BITMAP_BASE + kernelFreePages / 8 + userFreePages / 8, kernelFreePages / 8);
  }
}
