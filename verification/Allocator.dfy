/** memory.c: page allocation on the machine's own page tables. */
module Allocator {
  import opened Common
  import opened Paging
  import opened Bitmaps
  import opened MemoryState
  import opened MemoryOps
  import opened BindPage
  import opened Boot
  import opened PoolLayout

  datatype PoolType = KERNEL_POOL | USER_POOL

  /** How many bits are clear. */
  function Clear(used: seq<bool>): nat {
    if used == [] then 0 else (if used[0] then 0 else 1) + Clear(used[1..])
  }

  lemma {:induction false} ClearTaken(used: seq<bool>, i: nat)
    requires i < |used| && !used[i]
    ensures Clear(used) == Clear(used[i := true]) + 1
  {
    if i > 0 {
      assert used[i := true][1..] == used[1..][i - 1 := true];
      ClearTaken(used[1..], i - 1);
    }
  }

  lemma {:induction false} ClearNone(used: seq<bool>)
    ensures Clear(used) == 0 <==> AllUsed(used)
  {
    if used != [] {
      ClearNone(used[1..]);
      assert AllUsed(used) <==> used[0] && AllUsed(used[1..]) by {
        if used[0] && AllUsed(used[1..]) {
          forall i | 0 <= i < |used| ensures used[i] { assert i > 0 ==> used[i] == used[1..][i - 1]; }
        }
        if AllUsed(used) {
          forall i | 0 <= i < |used| - 1 ensures used[1..][i] { assert used[i + 1]; }
        }
      }
    }
  }

  /** A bitmap after bitmap_init. */
  function NoneUsed(n: nat): (used: seq<bool>)
    ensures |used| == n && (forall i :: 0 <= i < n ==> !used[i]) && Clear(used) == n
  {
    if n == 0 then [] else [false] + NoneUsed(n - 1)
  }

  /** What malloc_pages and its callers return: an address, NULL, or nothing at all. */
  datatype Allocation = Pages(va: Word) | Null | Halt

  /** A bitmap after bits start .. start + n - 1 have been set. */
  function Marked(used: seq<bool>, start: nat, n: nat): (r: seq<bool>)
    ensures |r| == |used| && forall i :: 0 <= i < |used| ==> r[i] == (used[i] || start <= i < start + n)
  {
    seq(|used|, i requires 0 <= i < |used| => used[i] || start <= i < start + n)
  }

  method MarkBits(used: seq<bool>, start: nat, n: nat) returns (r: seq<bool>)
    requires start + n <= |used|
    ensures r == Marked(used, start, n)
  {
    r := used;
    var i := start;
    while i < start + n
      invariant start <= i <= start + n && r == Marked(used, start, i - start)
    {
      r := r[i := true];
      i := i + 1;
    }
  }

  class Memory {
    var ram: Ram
    var cr3: FrameNo
    var kernelPool: Pool
    var userPool: Pool
    var kernelVirt: Virt
    var procs: seq<Process>
    /** The running process, or -1 in a thread without a pgdir. */
    var cur: int
    ghost var own: Owners

    ghost function M(): Mem
      reads this
    {
      Mem(ram, kernelPool, userPool, kernelVirt, procs)
    }

    ghost predicate Valid()
      reads this
    {
      && Consistent(M(), own) && -1 <= cur < |procs|
      && cr3 == DirOf(M(), cur)
    }

    /** Paging as setup_page leaves it on memory of any contents, then memory_init
        (memory.c:273-282). The kernel's page tables are taken to hold no present entry beyond
        those setup_page writes; `guard` is the bit behind the kernel's virtual bitmap. */
    constructor (before: Ram, allMem: nat, guard: bool)
      requires USED_MEM <= allMem < 0x1_0000_0000
      requires forall t: FrameNo, j: Index :: FIRST_TABLE <= t < 512 && (t > FIRST_TABLE || j >= 256) ==>
        !Present(Rd(before, t, j))
      ensures Valid() && cur == -1 && procs == [] && own == map[]
      ensures kernelPool.used == NoneUsed(|kernelPool.used|) && userPool.used == NoneUsed(|userPool.used|)
      ensures kernelVirt == Virt(KERNEL_HEAP, NoneUsed(|kernelPool.used|) + [guard])
      ensures |kernelPool.used| == 8 * (FreePages(allMem) / 2 / 8) &&
        |userPool.used| == 8 * ((FreePages(allMem) + 1) / 2 / 8)
      ensures kernelPool.start == 512 && userPool.start == 512 + FreePages(allMem) / 2
    {
      var image := SetupPage(before);
      var l := MemPoolInit(allMem);
      ram, cr3 := image, BOOT_DIR;
      kernelPool := Pool(l.kernel.start / PAGE, NoneUsed(8 * l.kernel.length));
      userPool := Pool(l.user.start / PAGE, NoneUsed(8 * l.user.length));
      kernelVirt := Virt(KERNEL_HEAP, NoneUsed(8 * l.vaddrLength) + [guard]);
      procs, cur, own := [], -1, map[];
      new;
      BootConsistent(M());
    }

    /** In the address space in use, user mode may read and write whatever is mapped. */
    lemma AllPermitted()
      requires Valid()
      ensures forall va: Word :: Walk(ram, cr3, va).Some? ==> UserAccess(ram, cr3, va)
    {
      Open(M(), own);
      forall va: Word ensures Walk(ram, cr3, va).Some? ==> UserAccess(ram, cr3, va) {
        MappedPermits(M(), own, cr3, va);
      }
    }

    // ----- access through the page tables

    method Load(va: Word) returns (w: Word)
      requires Walk(ram, cr3, va).Some?
      ensures w == Rd(ram, Walk(ram, cr3, va).value, WordIdx(va))
    {
      w := Rd(ram, Walk(ram, cr3, va).value, WordIdx(va));
    }

    method Store(va: Word, w: Word)
      requires Walk(ram, cr3, va).Some?
      modifies this`ram
      ensures ram == Wr(old(ram), Walk(old(ram), cr3, va).value, WordIdx(va), w)
    {
      ram := Wr(ram, Walk(ram, cr3, va).value, WordIdx(va), w);
    }

    /** memset of one page to 0. */
    method ZeroPage(va: Word)
      requires va % PAGE == 0 && Walk(ram, cr3, va).Some?
      modifies this`ram
      ensures ram == ZeroFrame(old(ram), Walk(old(ram), cr3, va).value)
    {
      ram := ZeroFrame(ram, Walk(ram, cr3, va).value);
    }

    // ----- one frame

    /** memory.c:140-147. None is the ASSERT of bitmap.c:45 failing; -1 never comes back. */
    method PaddrGetPage(kind: PoolType, ghost o: Owner) returns (frame: Option<FrameNo>)
      requires Valid() && (kind.USER_POOL? <==> o.UserPage?)
      modifies this`kernelPool, this`userPool, this`own
      ensures Valid()
      ensures frame == None <==> AllUsed(if kind.KERNEL_POOL? then old(kernelPool).used else old(userPool).used)
      ensures frame == None ==> M() == old(M()) && own == old(own)
      ensures frame.Some? ==> frame.value !in old(own) && own == old(own)[frame.value := o]
      ensures frame.Some? && kind.KERNEL_POOL? ==>
        userPool == old(userPool) && Clear(kernelPool.used) == Clear(old(kernelPool).used) - 1
      ensures frame.Some? && kind.USER_POOL? ==>
        kernelPool == old(kernelPool) && Clear(userPool.used) == Clear(old(userPool).used) - 1
      ensures frame.Some? ==> FirstFree(if kind.KERNEL_POOL? then old(kernelPool) else old(userPool), frame.value)
    {
      var pool := if kind.KERNEL_POOL? then kernelPool else userPool;
      var found := Search(pool.used, true, 1);
      OneBit(pool.used);
      if found == Panic {
        return None;
      }
      if kind.KERNEL_POOL? {
        TakeKernelFrame(M(), own, found.start, o);
        kernelPool := SetUsed(kernelPool, found.start);
      } else {
        TakeUserFrame(M(), own, found.start, o);
        userPool := SetUsed(userPool, found.start);
      }
      own := own[pool.start + found.start := o];
      frame := Some(pool.start + found.start);
    }

    // ----- one mapping

    /** memory.c:152-176, for a page that is mapped already or marked and set aside. False is a
        PANIC: the ASSERT of line 161 for a mapped page, or no frame for a table. For a page that
        is not mapped the ASSERTs on the absent entry hold, so "pte repeated" is never reached. */
    method BindVaddrPaddrPage(va: Word, frame: FrameNo) returns (ok: bool)
      requires Valid() && 0 < PdeIdx(va) < 1023 && (Walk(ram, cr3, va).Some? || Bindable(M(), own, cur, va, frame))
      modifies this`ram, this`kernelPool, this`userPool, this`own
      ensures userPool == old(userPool)
      ensures !ok <==>
        Walk(old(ram), cr3, va).Some? || (!Present(Rd(old(ram), cr3, PdeIdx(va))) && AllUsed(old(kernelPool).used))
      ensures ok ==> Valid() && Bound(old(M()), ram, cur, va, frame) && UserAccess(ram, cr3, va)
      ensures ok ==>
        Clear(kernelPool.used) == Clear(old(kernelPool).used) - if Present(Rd(old(ram), cr3, PdeIdx(va))) then 0 else 1
      ensures ok ==> forall f: nat :: f in old(own) ==> f in own && own[f] == old(own)[f]
      ensures ok ==> forall f: nat :: f in own && f !in old(own) ==> own[f].Table?
    {
      var pde, pte := PdePtr(va), PtePtr(va);
      DirShape(M(), own, cur);
      SelfMap(ram, cr3, va);
      var e := Load(pde);
      if Present(e) {
        var w := Load(pte);
        if Present(w) {
          return false;
        }
        BindThere(M(), own, cur, va, frame);
        Store(pte, Entry(frame));
        AllPermitted();
        ok := true;
      } else {
        ok := BindInNewTable(va, frame);
        if ok {
          AllPermitted();
        }
      }
    }

    /** memory.c:168-175. */
    method BindInNewTable(va: Word, frame: FrameNo) returns (ok: bool)
      requires Valid() && Bindable(M(), own, cur, va, frame) && !Present(Rd(ram, cr3, PdeIdx(va)))
      modifies this`ram, this`kernelPool, this`userPool, this`own
      ensures userPool == old(userPool)
      ensures !ok <==> AllUsed(old(kernelPool).used)
      ensures ok ==> Valid() && Bound(old(M()), ram, cur, va, frame)
      ensures ok ==> Clear(kernelPool.used) == Clear(old(kernelPool).used) - 1
      ensures ok ==> forall f: nat :: f in old(own) ==> f in own && own[f] == old(own)[f]
      ensures ok ==> forall f: nat :: f in own && f !in old(own) ==> own[f].Table?
    {
      EmptySlotIsUser(M(), own, cur, va);
      var t := PaddrGetPage(KERNEL_POOL, Table(cur, PdeIdx(va)));
      if t == None {
        return false;
      }
      BindNew(M(), own, cur, va, frame, t.value);
      DirShape(M(), own, cur);
      InstallTable(va, t.value, frame);
      ok := true;
    }

    /** memory.c:171-174: point the directory entry to the new table, clear the table, and make
        the entry. */
    method InstallTable(va: Word, t: FrameNo, frame: FrameNo)
      requires SelfMapped(ram, cr3) && PdeIdx(va) < 1023 && t != cr3
      modifies this`ram
      ensures ram == Wr(ZeroFrame(Wr(old(ram), cr3, PdeIdx(va), Entry(t)), t), t, PteIdx(va), Entry(frame))
    {
      var pde, pte := PdePtr(va), PtePtr(va);
      SelfMap(ram, cr3, va);
      Store(pde, Entry(t));
      TableShows(ram, cr3, va);
      var table := pte - pte % PAGE;
      ZeroPage(table);
      TableShows(ram, cr3, va);
      var w := Load(pte);
      assert !Present(w);
      Store(pte, Entry(frame));
    }

    // ----- a range

    /** The next page of a range, marked and not mapped. */
    ghost predicate PageReady(kind: PoolType, vpn: nat)
      requires Valid()
      reads this
    {
      && 1024 <= vpn && (if kind.USER_POOL? then cur >= 0 && vpn < USER_END else KERNEL_HEAP <= vpn < 1023 * 1024)
      && PageMarked(M(), cur, vpn) && Walk(ram, cr3, PageVa(vpn)) == None
    }

    /** memory.c:198-203, one round of the loop; false is a PANIC for lack of frames. */
    method BindNext(kind: PoolType, vpn: nat) returns (ok: bool, ghost frame: FrameNo)
      requires Valid() && PageReady(kind, vpn)
      modifies this`ram, this`kernelPool, this`userPool, this`own
      ensures ok ==> Valid() && Bound(old(M()), ram, cur, PageVa(vpn), frame)
      ensures ok ==> frame !in old(own) && frame in own && own[frame] == OwnerAt(cur, vpn)
      ensures ok ==> forall f: nat :: f in old(own) ==> f in own && own[f] == old(own)[f]
      ensures ok <==> PoolsPay(kind, EmptySlot(old(ram), cr3, vpn / 1024), old(kernelPool), old(userPool))
      ensures ok ==>
        PoolsPaid(kind, EmptySlot(old(ram), cr3, vpn / 1024), old(kernelPool), old(userPool), kernelPool, userPool)
    {
      frame := 0;
      ClearNone(kernelPool.used);
      ClearNone(userPool.used);
      PageSlot(M(), own, cur, vpn);
      var page := PaddrGetPage(kind, OwnerAt(cur, vpn));
      if page == None {
        return false, 0;
      }
      frame := page.value;
      ghost var m := M();
      ok := BindFrame(vpn, page.value);
      if ok {
        BoundFrom(old(M()), m, ram, cur, PageVa(vpn), frame);
      }
    }

    /** memory.c:202, for a frame just taken for the page. */
    method BindFrame(vpn: FrameNo, frame: FrameNo) returns (ok: bool)
      requires Valid() && 1024 <= vpn < 1023 * 1024 && Bindable(M(), own, cur, PageVa(vpn), frame)
      modifies this`ram, this`kernelPool, this`userPool, this`own
      ensures ok ==> Valid() && Bound(old(M()), ram, cur, PageVa(vpn), frame)
      ensures ok ==> forall f: nat :: f in old(own) ==> f in own && own[f] == old(own)[f]
      ensures userPool == old(userPool)
      ensures ok <==> !EmptySlot(old(ram), cr3, vpn / 1024) || Clear(old(kernelPool).used) > 0
      ensures ok ==>
        Clear(old(kernelPool).used) == Clear(kernelPool.used) + if EmptySlot(old(ram), cr3, vpn / 1024) then 1 else 0
    {
      ClearNone(kernelPool.used);
      PageSlot(M(), own, cur, vpn);
      ok := BindVaddrPaddrPage(PageVa(vpn), frame);
    }

    /** What is left of a range after its first pages have been bound since `start`. */
    ghost predicate Progress(start: Mem, owners: Owners, kind: PoolType, vpn: nat, n: nat, frames: seq<FrameNo>)
      reads this
    {
      Valid() && Going(start, owners, M(), own, cur, kind, vpn, n, frames)
    }

    /** One page of a range. */
    method BindOneOf(kind: PoolType, ghost vpn: nat, ghost n: nat, page: nat, ghost start: Mem, ghost owners: Owners,
                     ghost frames: seq<FrameNo>)
      returns (ok: bool, ghost more: seq<FrameNo>)
      requires Progress(start, owners, kind, vpn, n, frames) && |frames| < n && page == vpn + |frames|
      modifies this`ram, this`kernelPool, this`userPool, this`own
      ensures ok ==> Progress(start, owners, kind, vpn, n, more) && |more| == |frames| + 1
      ensures ok <==> PoolsPay(kind, OpensSlot(start.ram, cr3, vpn, |frames|), old(kernelPool), old(userPool))
      ensures ok ==> PoolsPaid(kind, OpensSlot(start.ram, cr3, vpn, |frames|), old(kernelPool), old(userPool),
                               kernelPool, userPool)
    {
      GoingReady(start, owners, M(), own, cur, kind, vpn, n, frames, page);
      ghost var m, mid := M(), own;
      ghost var frame;
      ok, frame := BindNext(kind, page);
      if ok {
        GoingNext(start, owners, m, mid, M(), own, cur, kind, vpn, n, frames, frame);
      }
      more := frames + [frame];
    }

    ghost predicate RangeReady(kind: PoolType, vpn: nat, n: nat)
      requires Valid()
      reads this
    {
      0 < n && Progress(M(), own, kind, vpn, n, [])
    }

    /** memory.c:196-204; false is a PANIC: for lack of frames, or because the range is the user's
        and sticks out of user space by one page, which is mapped. */
    method BindRange(kind: PoolType, vpn: nat, n: nat) returns (ok: bool, ghost frames: seq<FrameNo>)
      requires Valid() && RangeReady(kind, vpn, Reach(kind, vpn, n))
      modifies this`ram, this`kernelPool, this`userPool, this`own
      ensures ok ==> Progress(old(M()), old(own), kind, vpn, n, frames) && |frames| == n
      ensures ok <==>
        Reach(kind, vpn, n) == n && Affordable(old(ram), old(kernelPool), old(userPool), cr3, kind, vpn, n)
      ensures ok ==> Clear(kernelPool.used) == Clear(old(kernelPool).used) - KernelCost(old(ram), cr3, kind, vpn, n)
      ensures ok ==> Clear(userPool.used) == Clear(old(userPool).used) - UserCost(kind, n)
    {
      frames := [];
      var cnt := n;
      var page := vpn;
      while cnt > 0
        invariant 0 <= cnt <= n && |frames| == n - cnt <= Reach(kind, vpn, n) && page == vpn + |frames|
        invariant Progress(old(M()), old(own), kind, vpn, Reach(kind, vpn, n), frames)
        invariant RangePaid(old(M()), cr3, kind, vpn, |frames|, kernelPool, userPool)
      {
        ghost var more;
        ok, more := BindRound(kind, vpn, n, page, old(M()), old(own), frames);
        if !ok {
          return;
        }
        frames := more;
        cnt := cnt - 1;
        page := page + 1;
      }
      ok := true;
    }

    /** memory.c:197-203, one round of the loop. */
    method BindRound(kind: PoolType, ghost vpn: nat, ghost n: nat, page: nat, ghost start: Mem, ghost owners: Owners,
                     ghost frames: seq<FrameNo>)
      returns (ok: bool, ghost more: seq<FrameNo>)
      requires Progress(start, owners, kind, vpn, Reach(kind, vpn, n), frames)
      requires RangePaid(start, cr3, kind, vpn, |frames|, kernelPool, userPool)
      requires |frames| < n && page == vpn + |frames|
      modifies this`ram, this`kernelPool, this`userPool, this`own
      ensures ok ==> Progress(start, owners, kind, vpn, Reach(kind, vpn, n), more)
      ensures ok ==> RangePaid(start, cr3, kind, vpn, |more|, kernelPool, userPool)
      ensures ok ==> |more| == |frames| + 1 <= Reach(kind, vpn, n)
      ensures !ok ==>
        !(Reach(kind, vpn, n) == n && Affordable(start.ram, start.kernelPool, start.userPool, cr3, kind, vpn, n))
    {
      more := frames;
      if page == USER_END {
        ok := BindPastEnd();
      } else {
        RangeCannotPay(start, cr3, kind, vpn, |frames|, n, kernelPool, userPool);
        ghost var kernelBefore, userBefore := kernelPool, userPool;
        ok, more := BindOneOf(kind, vpn, Reach(kind, vpn, n), page, start, owners, frames);
        if ok {
          RangePaidNext(start, cr3, kind, vpn, |frames|, kernelBefore, userBefore, kernelPool, userPool);
        }
      }
    }

    /** The round of the loop that would map the page behind user space: a PANIC in any case. */
    method BindPastEnd() returns (ok: bool)
      requires Valid() && cur >= 0
      modifies this`ram, this`kernelPool, this`userPool, this`own
      ensures !ok
    {
      var page := PaddrGetPage(USER_POOL, UserPage(cur, USER_END));
      if page == None {
        return false;
      }
      UserEndMapped(M(), own, cur);
      ok := BindVaddrPaddrPage(PageVa(USER_END), page.value);
    }

    // ----- malloc_pages

    function VirtOf(kind: PoolType): Virt
      requires kind.USER_POOL? ==> 0 <= cur < |procs|
      reads this
    {
      if kind.KERNEL_POOL? then kernelVirt else procs[cur].virt
    }

    /** memory.c:109-135. Only a process has a user bitmap. */
    method VaddrGetPages(kind: PoolType, n: nat) returns (out: Allocation)
      requires Valid() && n > 0 && (kind.USER_POOL? ==> cur >= 0)
      modifies this`kernelVirt, this`procs
      ensures -1 <= cur < |procs|
      ensures out == Null <==> Run(old(M()), kind, cur, n) == Nowhere
      ensures out.Pages? <==> Accepted(old(M()), kind, cur, n)
      ensures out.Pages? ==>
        && out.va == FirstPage(old(M()), kind, cur, n) * PAGE
        && Marks(old(M()), M(), kind, cur, Run(old(M()), kind, cur, n).start, n)
        && Valid() && RangeReady(kind, out.va / PAGE, Reach(kind, out.va / PAGE, n))
      ensures out == Null ==> Valid() && M() == old(M())
      ensures ram == old(ram) && cr3 == DirOf(old(M()), cur) && forall p :: 0 <= p < |procs| ==>
        |procs| == |old(procs)| && procs[p].dir == old(procs)[p].dir
    {
      BitmapShape(M(), own);
      var found := Request(VirtOf(kind), n);
      if found == Panic {
        return Halt;
      } else if found == Nowhere {
        return Null;
      }
      out := PlaceRun(kind, found.start, n);
    }

    /** memory.c:116-119 and 128-134. */
    method PlaceRun(kind: PoolType, start: nat, n: nat) returns (out: Allocation)
      requires Valid() && n > 0 && (kind.USER_POOL? ==> cur >= 0) && Run(M(), kind, cur, n) == At(start)
      modifies this`kernelVirt, this`procs
      ensures -1 <= cur < |procs|
      ensures out != Null && (out.Pages? <==> Accepted(old(M()), kind, cur, n))
      ensures out.Pages? ==>
        && out.va == FirstPage(old(M()), kind, cur, n) * PAGE
        && Marks(old(M()), M(), kind, cur, start, n)
        && Valid() && RangeReady(kind, out.va / PAGE, Reach(kind, out.va / PAGE, n))
      ensures cr3 == DirOf(old(M()), cur) && forall p :: 0 <= p < |procs| ==>
        |procs| == |old(procs)| && procs[p].dir == old(procs)[p].dir
    {
      ghost var m := M();
      var vpn := VirtOf(kind).start + start;
      MarkRange(kind, start, n);
      if kind.USER_POOL? && !(vpn * PAGE < 0xbfff_f000) {
        return Halt;
      }
      NewRange(m, kind, vpn, n);
      out := Pages(PageVa(vpn));
    }

    /** memory.c:117-118, 128-129, 244 and 248: mark pages in the bitmap. */
    method MarkRange(kind: PoolType, start: nat, n: nat)
      requires Valid() && (kind.USER_POOL? ==> cur >= 0) && start + n <= |VirtOf(kind).used|
      modifies this`kernelVirt, this`procs
      ensures Valid() && cur < |old(procs)| && Marks(old(M()), M(), kind, cur, start, n)
    {
      var virt := VirtOf(kind);
      var used := MarkBits(virt.used, start, n);
      if kind.KERNEL_POOL? {
        MarkKernelVirt(M(), own, virt.(used := used));
        kernelVirt := virt.(used := used);
      } else {
        MarkUserVirt(M(), own, cur, virt.(used := used));
        procs := procs[cur := procs[cur].(virt := virt.(used := used))];
      }
    }

    /** A run that was clear in m and has been marked is ready to be filled. */
    lemma NewRange(m: Mem, kind: PoolType, vpn: nat, n: nat)
      requires Valid() && Consistent(m, own) && n > 0 &&
        (kind.USER_POOL? ==> 0 <= cur < |m.procs| && vpn < USER_END - 1)
      requires vpn >= UserOrKernel(m, kind, cur).start
      requires ClearRun(UserOrKernel(m, kind, cur).used, vpn - UserOrKernel(m, kind, cur).start, n)
      requires Marks(m, M(), kind, cur, vpn - UserOrKernel(m, kind, cur).start, n) && m.ram == ram
      ensures RangeReady(kind, vpn, Reach(kind, vpn, n))
    {
      Open(m, own);
      FreshRange(m, own, M(), cur, vpn, Reach(kind, vpn, n));
      FilledNone(M(), cur, vpn);
    }

    /** memory.c:205: clear the pages of the range. */
    method ZeroRange(kind: PoolType, vpn: nat, n: nat, ghost start: Mem, ghost owners: Owners,
                     ghost frames: seq<FrameNo>)
      requires Consistent(start, owners) && Progress(start, owners, kind, vpn, n, frames) && |frames| == n
      modifies this`ram
      ensures Progress(start, owners, kind, vpn, n, frames)
      ensures forall j :: 0 <= j < n ==> Cleared(ram, frames[j])
    {
      var k := 0;
      while k < n
        invariant 0 <= k <= n
        invariant Progress(start, owners, kind, vpn, n, frames)
        invariant forall j :: 0 <= j < k ==> Cleared(ram, frames[j])
      {
        ClearedMore(ram, frames, k);
        ZeroOneOf(kind, vpn, n, k, start, owners, frames);
        k := k + 1;
      }
    }

    method ZeroOneOf(kind: PoolType, vpn: nat, n: nat, k: nat, ghost start: Mem, ghost owners: Owners,
                     ghost frames: seq<FrameNo>)
      requires Consistent(start, owners) && Progress(start, owners, kind, vpn, n, frames) && k < |frames| == n
      modifies this`ram
      ensures Progress(start, owners, kind, vpn, n, frames) && ram == ZeroFrame(old(ram), frames[k])
    {
      RangeIsData(start, owners, M(), own, cur, vpn, frames, k);
      FilledZero(start, M(), own, cur, vpn, frames, frames[k]);
      ZeroData(M(), own, frames[k]);
      FilledHas(start, ram, cur, vpn, frames);
      assert Walk(ram, cr3, PageVa(vpn + k)) == Some(frames[k]);
      ZeroPage(PageVa(vpn + k));
    }

    /** memory.c:185-208, sequentially: exactly when it returns NULL, when it halts in an ASSERT
        for want of bits or frames or behind user space, and what a success does. A thread
        without a user bitmap has one of length 0, so a user allocation halts at bitmap.c:45.

        A success takes the first free run of the range's bitmap and marks it; its pages, not
        mapped before, are now mapped to pairwise different new frames of the right pool, all
        cleared; every translation there was in any address space is kept, and no other page
        is mapped; count frames of its own pool are taken, and one kernel frame for each empty
        directory slot the range touches. */
    method MallocPages(kind: PoolType, count: nat) returns (out: Allocation, ghost frames: seq<FrameNo>)
      requires Valid()
      modifies this`ram, this`kernelPool, this`userPool, this`kernelVirt, this`procs, this`own
      ensures -1 <= cur < |procs|
      ensures out == Null ==> Valid() && M() == old(M()) && own == old(own)
      ensures out == Null <==> Missing(old(M()), kind, cur, count)
      ensures out.Pages? <==> Grants(old(M()), cr3, kind, cur, count)
      ensures out.Pages? ==> AllocatedAt(old(M()), M(), kind, cur, cr3, count, out.va)
      ensures out.Pages? ==>
        Valid() && |frames| == count && (kind.KERNEL_POOL? ==> KERNEL_HEAP <= out.va / PAGE) &&
          Delivered(old(M()), old(own), ram, own, cur, out.va / PAGE, frames)
      ensures out.Pages? ==> forall page: FrameNo :: out.va / PAGE <= page < out.va / PAGE + count ==>
        UserAccess(ram, cr3, PageVa(page))
    {
      if !(count > 0 && count < 3840) || (kind.USER_POOL? && cur < 0) {
        out, frames := Halt, [];
      } else {
        out, frames := Allocate(kind, count);
        if out.Pages? {
          RangePermitted(old(M()), out.va / PAGE, frames);
        }
      }
    }

    /** The pages of a range that has been filled. */
    lemma RangePermitted(m: Mem, vpn: nat, frames: seq<FrameNo>)
      requires Valid() && -1 <= cur < |m.procs| && DirOf(m, cur) == cr3 && Filled(m, ram, cur, vpn, frames)
      ensures forall page: FrameNo :: vpn <= page < vpn + |frames| ==> UserAccess(ram, cr3, PageVa(page))
    {
      AllPermitted();
      FilledHas(m, ram, cur, vpn, frames);
      forall page: FrameNo | vpn <= page < vpn + |frames| ensures UserAccess(ram, cr3, PageVa(page)) {
        assert Walk(ram, cr3, PageVa(vpn + (page - vpn))) == Some(frames[page - vpn]);
      }
    }

    /** memory.c:188-207, after the check of count. */
    method Allocate(kind: PoolType, n: nat) returns (out: Allocation, ghost frames: seq<FrameNo>)
      requires Valid() && (kind.USER_POOL? ==> cur >= 0) && n > 0
      modifies this`ram, this`kernelPool, this`userPool, this`kernelVirt, this`procs, this`own
      ensures -1 <= cur < |procs|
      ensures out == Null ==> Valid() && M() == old(M()) && own == old(own)
      ensures out == Null <==> Run(old(M()), kind, cur, n) == Nowhere
      ensures out.Pages? <==> (Placeable(old(M()), kind, cur, n) &&
        Affordable(old(ram), old(kernelPool), old(userPool), cr3, kind, FirstPage(old(M()), kind, cur, n), n))
      ensures out.Pages? ==> AllocatedAt(old(M()), M(), kind, cur, cr3, n, out.va)
      ensures out.Pages? ==>
        Valid() && |frames| == n && (kind.KERNEL_POOL? ==> KERNEL_HEAP <= out.va / PAGE) &&
          Delivered(old(M()), old(own), ram, own, cur, out.va / PAGE, frames)
    {
      frames := [];
      out := VaddrGetPages(kind, n);
      if out.Pages? {
        ghost var start := M();
        assert out.va / PAGE == FirstPage(old(M()), kind, cur, n);
        var ok;
        ok, frames := FillRange(kind, out.va / PAGE, n);
        if ok {
          DeliveredFrom(old(M()), start, old(own), ram, own, cur, out.va / PAGE, frames);
        } else {
          out := Halt;
        }
      }
    }

    /** memory.c:194-205. */
    method FillRange(kind: PoolType, vpn: nat, n: nat) returns (ok: bool, ghost frames: seq<FrameNo>)
      requires Valid() && RangeReady(kind, vpn, Reach(kind, vpn, n))
      modifies this`ram, this`kernelPool, this`userPool, this`own
      ensures ok <==>
        Reach(kind, vpn, n) == n && Affordable(old(ram), old(kernelPool), old(userPool), cr3, kind, vpn, n)
      ensures ok ==> Clear(kernelPool.used) == Clear(old(kernelPool).used) - KernelCost(old(ram), cr3, kind, vpn, n)
      ensures ok ==> Clear(userPool.used) == Clear(old(userPool).used) - UserCost(kind, n)
      ensures ok ==> Valid() && |frames| == n && (kind.KERNEL_POOL? ==> KERNEL_HEAP <= vpn)
      ensures ok ==> Delivered(old(M()), old(own), ram, own, cur, vpn, frames)
    {
      ok, frames := BindRange(kind, vpn, n);
      if ok {
        ZeroRange(kind, vpn, n, old(M()), old(own), frames);
      }
    }

    /** memory.c:234-261: give the page of va a frame. The frame is not cleared. The caller
        names a page the bitmap covers. */
    method GetAPage(kind: PoolType, va: Word) returns (out: Allocation, ghost frame: FrameNo)
      requires Valid() && (kind.USER_POOL? ==> USER_START <= va / PAGE < USER_END)
      requires kind.KERNEL_POOL? ==> KERNEL_HEAP <= va / PAGE < KERNEL_HEAP + |kernelVirt.used| - 1
      modifies this`ram, this`kernelPool, this`userPool, this`kernelVirt, this`procs, this`own
      ensures -1 <= cur < |procs| && cur < |old(procs)| && out != Null
      ensures out.Pages? <==>
        && (kind.USER_POOL? <==> cur >= 0) && va / PAGE != (if kind.USER_POOL? then USER_START else KERNEL_HEAP)
        && Walk(old(ram), cr3, PageVa(va / PAGE)) == None
        && Affordable(old(ram), old(kernelPool), old(userPool), cr3, kind, va / PAGE, 1)
      ensures out.Pages? ==>
        && out.va == va && Valid() && (kind.USER_POOL? <==> cur >= 0)
        && Marks(old(M()), M(), kind, cur, va / PAGE - (if kind.USER_POOL? then USER_START else KERNEL_HEAP), 1)
        && Filled(old(M()), ram, cur, va / PAGE, [frame]) && RangeOwned(old(own), own, cur, va / PAGE, [frame])
        && Spent(old(M()), M(), cr3, kind, va / PAGE, 1) && UserAccess(ram, cr3, PageVa(va / PAGE))
    {
      frame := 0;
      if !(kind.USER_POOL? <==> cur >= 0) {
        return Halt, 0;
      }
      Open(M(), own);
      var vpn := va / PAGE;
      var bitIdx := vpn - VirtOf(kind).start;
      if !(bitIdx > 0) {
        return Halt, 0;
      }
      var ok;
      ok, frame := MarkAndTake(kind, vpn, bitIdx);
      out := if ok then Pages(va) else Halt;
    }

    /** memory.c:243-258, for a page the bitmap covers. */
    method MarkAndTake(kind: PoolType, vpn: FrameNo, bitIdx: nat) returns (ok: bool, ghost frame: FrameNo)
      requires Valid() && (kind.USER_POOL? <==> cur >= 0)
      requires vpn == VirtOf(kind).start + bitIdx && bitIdx < |VirtOf(kind).used| - 1
      requires if kind.USER_POOL? then USER_START <= vpn < USER_END else KERNEL_HEAP <= vpn < 1023 * 1024
      modifies this`ram, this`kernelPool, this`userPool, this`kernelVirt, this`procs, this`own
      ensures -1 <= cur < |procs|
      ensures ok <==>
        && Walk(old(ram), cr3, PageVa(vpn)) == None
        && Affordable(old(ram), old(kernelPool), old(userPool), cr3, kind, vpn, 1)
      ensures ok ==>
        && Valid() && Marks(old(M()), M(), kind, cur, bitIdx, 1)
        && Filled(old(M()), ram, cur, vpn, [frame]) && RangeOwned(old(own), own, cur, vpn, [frame])
        && Spent(old(M()), M(), cr3, kind, vpn, 1) && UserAccess(ram, cr3, PageVa(vpn))
    {
      ghost var m := M();
      MarkRange(kind, bitIdx, 1);
      label marked:
      if Walk(ram, cr3, PageVa(vpn)) != None {
        return false, 0; // the ASSERT of memory.c:161
      }
      ok, frame := TakePage(kind, vpn);
      if ok {
        FilledFrom(m, old@marked(M()), ram, cur, vpn, [frame]);
        RangePermitted(m, vpn, [frame]);
      }
    }

    /** memory.c:254-258. */
    method TakePage(kind: PoolType, vpn: nat) returns (ok: bool, ghost frame: FrameNo)
      requires Valid() && PageReady(kind, vpn)
      modifies this`ram, this`kernelPool, this`userPool, this`own
      ensures ok <==> Affordable(old(ram), old(kernelPool), old(userPool), cr3, kind, vpn, 1)
      ensures ok ==> Valid() && Filled(old(M()), ram, cur, vpn, [frame]) && RangeOwned(old(own), own, cur, vpn, [frame])
      ensures ok ==> Spent(old(M()), M(), cr3, kind, vpn, 1)
    {
      CostOfOne(ram, cr3, kind, vpn);
      ok, frame := BindNext(kind, vpn);
      if ok {
        FilledOne(old(M()), ram, cur, vpn, frame);
      }
    }
  }

  /** What a binding does to memory does not depend on the pools. */
  lemma BoundFrom(m: Mem, m': Mem, ram: Ram, cur: int, va: Word, f: FrameNo)
    requires -1 <= cur < |m.procs| && m'.ram == m.ram && m'.procs == m.procs && Bound(m', ram, cur, va, f)
    ensures Bound(m, ram, cur, va, f)
  {
  }

  /** The directory slot of a page; a kernel page has its table from boot on. */
  lemma PageSlot(m: Mem, own: Owners, cur: int, vpn: FrameNo)
    requires Consistent(m, own) && -1 <= cur < |m.procs| && 1024 <= vpn < 1023 * 1024
    ensures 0 < PdeIdx(PageVa(vpn)) < 1023 && PdeIdx(PageVa(vpn)) == vpn / 1024
    ensures vpn >= USER_END ==> !EmptySlot(m.ram, DirOf(m, cur), vpn / 1024)
  {
    DirShape(m, own, cur);
  }

  /** The pools have the frame of one page, and another for its table when that is missing. */
  ghost predicate PoolsPay(kind: PoolType, noTable: bool, kernelPool: Pool, userPool: Pool) {
    && Clear(kernelPool.used) >= (if noTable then 1 else 0) + (if kind.KERNEL_POOL? then 1 else 0)
    && Clear(userPool.used) >= if kind.USER_POOL? then 1 else 0
  }

  ghost predicate PoolsPaid(kind: PoolType, noTable: bool, kernelPool: Pool, userPool: Pool,
                            kernelPool': Pool, userPool': Pool)
  {
    && Clear(kernelPool.used) ==
      Clear(kernelPool'.used) + (if noTable then 1 else 0) + (if kind.KERNEL_POOL? then 1 else 0)
    && Clear(userPool.used) == Clear(userPool'.used) + if kind.USER_POOL? then 1 else 0
  }

  /** The frames of the first k pages of a range, and no others, are gone from the pools. */
  ghost predicate RangePaid(start: Mem, dir: FrameNo, kind: PoolType, vpn: nat, k: nat, kernelPool: Pool,
                            userPool: Pool)
  {
    && Clear(start.kernelPool.used) == Clear(kernelPool.used) + KernelCost(start.ram, dir, kind, vpn, k)
    && Clear(start.userPool.used) == Clear(userPool.used) + UserCost(kind, k)
  }

  lemma RangePaidNext(start: Mem, dir: FrameNo, kind: PoolType, vpn: nat, k: nat,
                      kernelPool: Pool, userPool: Pool, kernelPool': Pool, userPool': Pool)
    requires RangePaid(start, dir, kind, vpn, k, kernelPool, userPool)
    requires PoolsPaid(kind, OpensSlot(start.ram, dir, vpn, k), kernelPool, userPool, kernelPool', userPool')
    ensures RangePaid(start, dir, kind, vpn, k + 1, kernelPool', userPool')
  {
    SlotCountNext(start.ram, dir, vpn, k);
  }

  /** Pools that cannot pay for page k could not pay for the range when it was begun. */
  lemma RangeCannotPay(start: Mem, dir: FrameNo, kind: PoolType, vpn: nat, k: nat, n: nat, kernelPool: Pool,
                       userPool: Pool)
    requires k < n && RangePaid(start, dir, kind, vpn, k, kernelPool, userPool)
    ensures !PoolsPay(kind, OpensSlot(start.ram, dir, vpn, k), kernelPool, userPool) ==>
      !Affordable(start.ram, start.kernelPool, start.userPool, dir, kind, vpn, n)
  {
    SlotCountNext(start.ram, dir, vpn, k);
    SlotCountMonotone(start.ram, dir, vpn, k + 1, n);
  }

  /** The first pages of a range have been bound since `start`, the others are free to be. */
  ghost predicate Going(start: Mem, owners: Owners, m: Mem, own: Owners, cur: int, kind: PoolType,
                        vpn: nat, n: nat, frames: seq<FrameNo>)
    requires -1 <= cur < |m.procs|
  {
    && start.procs == m.procs && start.kernelVirt == m.kernelVirt
    && 1024 <= vpn && vpn + n <= 1023 * 1024 && |frames| <= n
    && (if kind.USER_POOL? then cur >= 0 && vpn + n <= USER_END else KERNEL_HEAP <= vpn)
    && (forall page: nat :: vpn <= page < vpn + n ==>
          PageMarked(start, cur, page) && Walk(start.ram, DirOf(m, cur), PageVa(page)) == None)
    && Filled(start, m.ram, cur, vpn, frames) && RangeOwned(owners, own, cur, vpn, frames)
    && (forall f: nat :: f in owners ==> f in own && own[f] == owners[f])
  }

  lemma GoingReady(start: Mem, owners: Owners, m: Mem, own: Owners, cur: int, kind: PoolType,
                   vpn: nat, n: nat, frames: seq<FrameNo>, page: FrameNo)
    requires -1 <= cur < |m.procs| && Going(start, owners, m, own, cur, kind, vpn, n, frames)
    requires |frames| < n && page == vpn + |frames|
    ensures if kind.USER_POOL? then cur >= 0 && 1024 <= page < USER_END else KERNEL_HEAP <= page < 1023 * 1024
    ensures PageMarked(m, cur, page) && Walk(m.ram, DirOf(m, cur), PageVa(page)) == None
    ensures EmptySlot(m.ram, DirOf(m, cur), page / 1024) <==> OpensSlot(start.ram, DirOf(m, cur), vpn, |frames|)
  {
    FilledRest(start, m.ram, cur, vpn, frames, page);
    assert PageMarked(start, cur, page);
  }

  lemma GoingNext(start: Mem, owners: Owners, m: Mem, mid: Owners, m': Mem, own: Owners, cur: int, kind: PoolType,
                  vpn: nat, n: nat, frames: seq<FrameNo>, frame: FrameNo)
    requires -1 <= cur < |m.procs| && Going(start, owners, m, mid, cur, kind, vpn, n, frames) && |frames| < n
    requires m'.procs == m.procs && m'.kernelVirt == m.kernelVirt
    requires Bound(m, m'.ram, cur, PageVa(vpn + |frames|), frame)
    requires forall f: nat :: f in mid ==> f in own && own[f] == mid[f]
    requires frame !in mid && frame in own && own[frame] == OwnerAt(cur, vpn + |frames|)
    ensures Going(start, owners, m', own, cur, kind, vpn, n, frames + [frame])
  {
    OwnedGrows(owners, mid, own, cur, vpn, frames, frame);
    FilledNext(start, m, m'.ram, cur, vpn, frames, frame);
  }

  /** The bitmap allocations of a kind are taken from. */
  function UserOrKernel(m: Mem, kind: PoolType, cur: int): Virt
    requires kind.USER_POOL? ==> 0 <= cur < |m.procs|
  {
    if kind.KERNEL_POOL? then m.kernelVirt else m.procs[cur].virt
  }

  /** What the bitmap answers to a request for n pages. */
  function Run(m: Mem, kind: PoolType, cur: int, n: nat): Found
    requires n > 0 && (kind.USER_POOL? ==> 0 <= cur < |m.procs|)
  {
    var virt := UserOrKernel(m, kind, cur);
    if virt.used == [] then Panic else Request(virt, n)
  }

  lemma BitmapShape(m: Mem, own: Owners)
    requires Consistent(m, own)
    ensures m.kernelVirt.used != [] && forall p :: 0 <= p < |m.procs| ==> m.procs[p].virt.used != []
  {
    Open(m, own);
  }

  /** A run was found, and it starts below the last user page if it is the user's. */
  predicate Accepted(m: Mem, kind: PoolType, cur: int, n: nat)
    requires n > 0 && (kind.USER_POOL? ==> 0 <= cur < |m.procs|)
  {
    Run(m, kind, cur, n).At? && (kind.USER_POOL? ==> FirstPage(m, kind, cur, n) < USER_END - 1)
  }

  /** ... and it ends in user space. */
  predicate Placeable(m: Mem, kind: PoolType, cur: int, n: nat)
    requires n > 0 && (kind.USER_POOL? ==> 0 <= cur < |m.procs|)
  {
    Accepted(m, kind, cur, n) && Reach(kind, FirstPage(m, kind, cur, n), n) == n
  }

  /** How many of n pages from vpn on are not behind user space: the search can answer with a
      run that ends one bit behind the bitmap. */
  function Reach(kind: PoolType, vpn: nat, n: nat): nat {
    if kind.USER_POOL? && n > 0 && vpn + n == USER_END + 1 then n - 1 else n
  }

  function FirstPage(m: Mem, kind: PoolType, cur: int, n: nat): nat
    requires n > 0 && (kind.USER_POOL? ==> 0 <= cur < |m.procs|) && Run(m, kind, cur, n).At?
  {
    UserOrKernel(m, kind, cur).start + Run(m, kind, cur, n).start
  }

  /** When malloc_pages returns NULL. */
  predicate Missing(m: Mem, kind: PoolType, cur: int, n: nat) {
    0 < n < 3840 && (kind.USER_POOL? ==> 0 <= cur < |m.procs|) && Run(m, kind, cur, n) == Nowhere
  }

  /** When malloc_pages succeeds. */
  ghost predicate Grants(m: Mem, dir: FrameNo, kind: PoolType, cur: int, n: nat) {
    && 0 < n < 3840 && (kind.USER_POOL? ==> 0 <= cur < |m.procs|) && Placeable(m, kind, cur, n)
    && Affordable(m.ram, m.kernelPool, m.userPool, dir, kind, FirstPage(m, kind, cur, n), n)
  }

  /** The bits a success sets and the address it returns. */
  ghost predicate AllocatedAt(m: Mem, m': Mem, kind: PoolType, cur: int, dir: FrameNo, n: nat, va: Word)
    requires n > 0 && (kind.USER_POOL? ==> 0 <= cur < |m.procs|)
  {
    && Run(m, kind, cur, n).At? && va == FirstPage(m, kind, cur, n) * PAGE
    && Marks(m, m', kind, cur, Run(m, kind, cur, n).start, n)
    && Spent(m, m', dir, kind, va / PAGE, n)
  }

  /** The frames a range of n pages takes are gone from the pools, and no others. */
  ghost predicate Spent(m: Mem, m': Mem, dir: FrameNo, kind: PoolType, vpn: nat, n: nat) {
    && Clear(m'.kernelPool.used) == Clear(m.kernelPool.used) - KernelCost(m.ram, dir, kind, vpn, n)
    && Clear(m'.userPool.used) == Clear(m.userPool.used) - UserCost(kind, n)
  }

  /** The kernel frames a range of n pages takes: one for each empty directory slot it touches,
      and its own pages if they are the kernel's. */
  ghost function KernelCost(ram: Ram, dir: FrameNo, kind: PoolType, vpn: nat, n: nat): nat {
    SlotCount(ram, dir, vpn, n) + if kind.KERNEL_POOL? then n else 0
  }

  lemma CostOfOne(ram: Ram, dir: FrameNo, kind: PoolType, vpn: nat)
    ensures KernelCost(ram, dir, kind, vpn, 1) ==
      (if EmptySlot(ram, dir, vpn / 1024) then 1 else 0) + if kind.KERNEL_POOL? then 1 else 0
  {
    SlotCountNext(ram, dir, vpn, 0);
  }

  function UserCost(kind: PoolType, n: nat): nat {
    if kind.USER_POOL? then n else 0
  }

  /** Enough clear bits are left for a range. */
  ghost predicate Affordable(ram: Ram, kernel: Pool, user: Pool, dir: FrameNo, kind: PoolType, vpn: nat, n: nat) {
    Clear(kernel.used) >= KernelCost(ram, dir, kind, vpn, n) && Clear(user.used) >= UserCost(kind, n)
  }

  /** Exactly the bits of the range have been set, in its bitmap only. */
  predicate Marks(m: Mem, m': Mem, kind: PoolType, cur: int, start: nat, n: nat)
    requires kind.USER_POOL? ==> 0 <= cur < |m.procs|
  {
    if kind.KERNEL_POOL? then
      m'.procs == m.procs && m'.kernelVirt == m.kernelVirt.(used := Marked(m.kernelVirt.used, start, n))
    else
      var pr := m.procs[cur];
      && m'.kernelVirt == m.kernelVirt
      && m'.procs == m.procs[cur := pr.(virt := pr.virt.(used := Marked(pr.virt.used, start, n)))]
  }

  /** f is the first frame of the pool that is not in use. */
  predicate FirstFree(pool: Pool, f: nat) {
    && pool.start <= f < pool.start + |pool.used| && !pool.used[f - pool.start]
    && forall i :: 0 <= i < f - pool.start ==> pool.used[i]
  }

  /** A request for one bit panics on a full bitmap and otherwise finds the first clear bit; it
      never answers -1. What lies behind the bitmap does not matter. */
  lemma OneBit(used: seq<bool>)
    ensures Search(used, true, 1) == Search(used, false, 1)
    ensures Search(used, true, 1) == Panic <==> AllUsed(used)
    ensures !AllUsed(used) ==>
      var i := Search(used, true, 1);
      i.At? && i.start < |used| && !used[i.start] && (forall j :: 0 <= j < i.start ==> used[j]) &&
      Clear(used[i.start := true]) == Clear(used) - 1
  {
    if !AllUsed(used) {
      var i :| 0 <= i < |used| && !used[i];
      assert ClearRun(used + [true], i, 1);
      var found := Search(used, true, 1);
      assert ClearRun(used + [true], found.start, 1) && !(used + [true])[found.start];
      forall j | 0 <= j < found.start ensures used[j] { assert !ClearRun(used + [true], j, 1); }
      ClearTaken(used, found.start);
    }
    OverrunExactly(used, false, 1);
  }
}
