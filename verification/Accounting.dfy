/** What kernel allocations cost. */
module Accounting {
  import opened Common
  import opened Paging
  import opened Bitmaps
  import opened MemoryState
  import opened BindPage
  import opened Allocator

  /** A range in the kernel's half costs its own pages and no page table: every directory has
      all the kernel's entries from the start. */
  lemma {:induction false} KernelRangeCost(m: Mem, own: Owners, cur: int, vpn: nat, n: nat)
    requires Consistent(m, own) && -1 <= cur < |m.procs| && KERNEL_HEAP <= vpn && vpn + n <= 1023 * 1024
    ensures KernelCost(m.ram, DirOf(m, cur), KERNEL_POOL, vpn, n) == n
    decreases n
  {
    if n > 0 {
      KernelRangeCost(m, own, cur, vpn, n - 1);
      SlotCountNext(m.ram, DirOf(m, cur), vpn, n - 1);
      DirShape(m, own, cur);
    }
  }

  /** The flags after a request for n pages has been granted. */
  function Take(used: seq<bool>, n: nat): (r: Option<seq<bool>>)
    requires n > 0 && used != []
    ensures r.Some? ==> |r.value| == |used|
  {
    var found := Search(used[..|used| - 1], used[|used| - 1], n);
    if found.At? then Some(Marked(used, found.start, n)) else None
  }

  /** A kernel allocation is granted exactly when a run is found and enough frames are left. */
  lemma KernelGrants(m: Mem, own: Owners, cur: int, n: nat)
    requires Consistent(m, own) && -1 <= cur < |m.procs| && n > 0
    ensures m.kernelVirt.used != []
    ensures Grants(m, DirOf(m, cur), KERNEL_POOL, cur, n) <==>
      n < 3840 && Take(m.kernelVirt.used, n).Some? && Clear(m.kernelPool.used) >= n
    ensures Grants(m, DirOf(m, cur), KERNEL_POOL, cur, n) ==>
      && Take(m.kernelVirt.used, n) == Some(Marked(m.kernelVirt.used, Run(m, KERNEL_POOL, cur, n).start, n))
      && KernelCost(m.ram, DirOf(m, cur), KERNEL_POOL, FirstPage(m, KERNEL_POOL, cur, n), n) == n
  {
    Open(m, own);
    if Run(m, KERNEL_POOL, cur, n).At? {
      assert Run(m, KERNEL_POOL, cur, n) == Request(m.kernelVirt, n);
      KernelRangeCost(m, own, cur, FirstPage(m, KERNEL_POOL, cur, n), n);
    }
  }
}
