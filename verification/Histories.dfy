/** Any sequence of allocations, process creations and address-space switches, as a relation
    between snapshots and as calls on the machine. */
module Histories {
  import opened Common
  import opened Paging
  import opened Bitmaps
  import opened MemoryState
  import opened MemoryOps
  import opened BindPage
  import opened PoolLayout
  import opened Allocator
  import opened Accounting
  import opened Processes

  datatype Op =
    | Malloc(kind: PoolType, n: nat)       // malloc_kernel_pages, malloc_user_pages
    | GetPage(kind: PoolType, va: Word)    // get_a_page
    | Execute                              // process_execute
    | Switch(p: int)                       // to process p, or for -1 to a kernel thread

  /** Memory, the directory in use, and the process it belongs to. */
  datatype Snap = Snap(m: Mem, dir: FrameNo, cur: int)

  ghost function Now(k: Memory): Snap
    reads k
  {
    Snap(k.M(), k.cr3, k.cur)
  }

  ghost predicate Sound(s: Snap) {
    (exists own: Owners :: Consistent(s.m, own)) && -1 <= s.cur < |s.m.procs| && s.dir == DirOf(s.m, s.cur)
  }

  // ----- when a call returns

  /** malloc_pages returns, with pages or with NULL. */
  ghost predicate Survives(s: Snap, kind: PoolType, n: nat) {
    Grants(s.m, s.dir, kind, s.cur, n) || Missing(s.m, kind, s.cur, n)
  }

  function StartOf(kind: PoolType): nat {
    if kind.USER_POOL? then USER_START else KERNEL_HEAP
  }

  /** get_a_page returns: the thread is of the right sort, the page is not the first of its range
      and not mapped, and the pools can pay. */
  ghost predicate GetFits(s: Snap, kind: PoolType, va: Word) {
    && (kind.USER_POOL? <==> s.cur >= 0) && va / PAGE != StartOf(kind)
    && Walk(s.m.ram, s.dir, PageVa(va / PAGE)) == None
    && Affordable(s.m.ram, s.m.kernelPool, s.m.userPool, s.dir, kind, va / PAGE, 1)
  }

  ghost predicate Returns(op: Op, s: Snap) {
    match op
    case Malloc(kind, n) => Survives(s, kind, n)
    case GetPage(kind, va) => GetFits(s, kind, va)
    case Execute => ExecuteFits(s.m)
    case Switch(_) => true
  }

  // ----- what a call that returns does

  /** Page vpn was not mapped in s and is mapped in s', for user mode to read and write. */
  ghost predicate NewlyMapped(s: Snap, s': Snap, vpn: FrameNo) {
    && Walk(s.m.ram, s.dir, PageVa(vpn)) == None
    && Walk(s'.m.ram, s'.dir, PageVa(vpn)).Some? && UserAccess(s'.m.ram, s'.dir, PageVa(vpn))
  }

  ghost predicate Malloced(s: Snap, s': Snap, kind: PoolType, n: nat)
    requires Grants(s.m, s.dir, kind, s.cur, n)
  {
    var vpn := FirstPage(s.m, kind, s.cur, n);
    && Marks(s.m, s'.m, kind, s.cur, Run(s.m, kind, s.cur, n).start, n)
    && Spent(s.m, s'.m, s.dir, kind, vpn, n) && Isolated(s.m, s'.m.ram, s.dir, vpn, n)
    && (forall page: FrameNo :: vpn <= page < vpn + n ==>
          NewlyMapped(s, s', page) && Cleared(s'.m.ram, Walk(s'.m.ram, s'.dir, PageVa(page)).value))
  }

  ghost predicate Gotten(s: Snap, s': Snap, kind: PoolType, va: Word)
    requires GetFits(s, kind, va)
  {
    && va / PAGE >= StartOf(kind) && -1 <= s.cur < |s.m.procs|
    && Marks(s.m, s'.m, kind, s.cur, va / PAGE - StartOf(kind), 1)
    && Spent(s.m, s'.m, s.dir, kind, va / PAGE, 1) && Isolated(s.m, s'.m.ram, s.dir, va / PAGE, 1)
    && NewlyMapped(s, s', va / PAGE)
  }

  ghost predicate Executed(s: Snap, s': Snap)
    requires ExecuteFits(s.m)
  {
    && NewProcess(s.m, s'.m) && KernelTaken(s.m, s'.m, 25) && UserKept(s.m, s'.m.ram)
    && s'.m.kernelVirt == s.m.kernelVirt.(used := Took(s.m.kernelVirt.used).value)
  }

  ghost predicate SameSpace(s: Snap, s': Snap) {
    s'.cur == s.cur && s'.dir == s.dir
  }

  ghost predicate Does(op: Op, s: Snap, s': Snap)
    requires Returns(op, s)
  {
    match op
    case Malloc(kind, n) =>
      SameSpace(s, s') && if Grants(s.m, s.dir, kind, s.cur, n) then Malloced(s, s', kind, n) else s' == s
    case GetPage(kind, va) => SameSpace(s, s') && Gotten(s, s', kind, va)
    case Execute => SameSpace(s, s') && Executed(s, s')
    case Switch(p) => s'.m == s.m && (if -1 <= p < |s.m.procs| then s'.cur == p else s' == s)
  }

  /** A call that returns: what it does, and what every call keeps. */
  ghost predicate Stepped(op: Op, s: Snap, s': Snap) {
    && Sound(s) && Sound(s') && Returns(op, s) && Does(op, s, s')
    && KeepsWalks(s.m, s'.m.ram) && DirsKept(s.m, s'.m)
  }

  /** The states before the calls and after the last one that returned. */
  ghost predicate History(ops: seq<Op>, trace: seq<Snap>) {
    && 0 < |trace| <= |ops| + 1 && Sound(trace[0])
    && forall i :: 0 <= i < |trace| - 1 ==> Stepped(ops[i], trace[i], trace[i + 1])
  }

  // ----- the machine does it

  /** A page of the bitmap get_a_page marks; it sets a bit elsewhere for any other. */
  predicate Covered(op: Op, kernelPages: int) {
    op.GetPage? ==>
      var vpn := op.va / PAGE;
      if op.kind.USER_POOL? then USER_START <= vpn < USER_END else KERNEL_HEAP <= vpn < KERNEL_HEAP + kernelPages
  }

  /** One call returns exactly when the snapshot says so, and does what it says. */
  method OneCall(k: Memory, op: Op) returns (running: bool)
    requires k.Valid() && Covered(op, |k.kernelVirt.used| - 1)
    modifies k
    ensures running <==> Returns(op, old(Now(k)))
    ensures running ==> k.Valid() && Stepped(op, old(Now(k)), Now(k)) && |k.kernelVirt.used| == |old(k.kernelVirt.used)|
  {
    ghost var m, own := k.M(), k.own;
    match op
    case Malloc(kind, n) => running := CallMalloc(k, kind, n);
    case GetPage(kind, va) => running := CallGetPage(k, kind, va);
    case Execute => running := ProcessExecute(k);
    case Switch(p) =>
      running := true;
      if -1 <= p < |k.procs| {
        PageDirActivate(k, p);
      }
    assert Consistent(m, own);
  }

  method CallMalloc(k: Memory, kind: PoolType, n: nat) returns (running: bool)
    requires k.Valid()
    modifies k
    ensures running <==> Returns(Op.Malloc(kind, n), old(Now(k)))
    ensures running ==> k.Valid() && Does(Op.Malloc(kind, n), old(Now(k)), Now(k))
    ensures running ==>
      KeepsWalks(old(k.M()), k.ram) && DirsKept(old(k.M()), k.M()) && |k.kernelVirt.used| == |old(k.kernelVirt.used)|
  {
    var out, frames := k.MallocPages(kind, n);
    running := out != Halt;
    if out.Pages? {
      FilledHas(old(k.M()), k.ram, k.cur, out.va / PAGE, frames);
      MallocDone(old(Now(k)), old(k.own), Now(k), k.own, kind, n, out.va, frames);
    }
  }

  /** What a success of malloc_pages has done. */
  lemma MallocDone(s: Snap, own: Owners, s': Snap, own': Owners, kind: PoolType, n: nat, va: Word,
                   frames: seq<FrameNo>)
    requires -1 <= s.cur < |s.m.procs| && s.dir == DirOf(s.m, s.cur) == s'.dir
    requires Grants(s.m, s.dir, kind, s.cur, n) && AllocatedAt(s.m, s'.m, kind, s.cur, s.dir, n, va) && |frames| == n
    requires Delivered(s.m, own, s'.m.ram, own', s.cur, va / PAGE, frames)
    requires forall page: FrameNo :: va / PAGE <= page < va / PAGE + n ==> UserAccess(s'.m.ram, s.dir, PageVa(page))
    ensures Malloced(s, s', kind, n)
  {
    FilledHas(s.m, s'.m.ram, s.cur, va / PAGE, frames);
    RangeWalks(s.m, s'.m, s.cur, va / PAGE, frames);
  }

  lemma RangeWalks(m: Mem, m': Mem, cur: int, vpn: nat, frames: seq<FrameNo>)
    requires -1 <= cur < |m.procs| && vpn + |frames| <= 0x10_0000 && RangeMapped(m'.ram, DirOf(m, cur), vpn, frames)
    ensures forall page: FrameNo :: vpn <= page < vpn + |frames| ==>
      Walk(m'.ram, DirOf(m, cur), PageVa(page)) == Some(frames[page - vpn])
  {
    forall page: FrameNo | vpn <= page < vpn + |frames|
      ensures Walk(m'.ram, DirOf(m, cur), PageVa(page)) == Some(frames[page - vpn])
    {
      assert PageVa(vpn + (page - vpn)) == PageVa(page);
    }
  }

  lemma OneWalk(m: Mem, m': Mem, cur: int, vpn: FrameNo, frame: FrameNo)
    requires -1 <= cur < |m.procs| && RangeMapped(m'.ram, DirOf(m, cur), vpn, [frame])
    ensures Walk(m'.ram, DirOf(m, cur), PageVa(vpn)) == Some(frame)
  {
    assert PageVa(vpn + 0) == PageVa(vpn) && [frame][0] == frame;
  }

  method CallGetPage(k: Memory, kind: PoolType, va: Word) returns (running: bool)
    requires k.Valid() && Covered(GetPage(kind, va), |k.kernelVirt.used| - 1)
    modifies k
    ensures running <==> Returns(GetPage(kind, va), old(Now(k)))
    ensures running ==> k.Valid() && Does(GetPage(kind, va), old(Now(k)), Now(k))
    ensures running ==>
      KeepsWalks(old(k.M()), k.ram) && DirsKept(old(k.M()), k.M()) && |k.kernelVirt.used| == |old(k.kernelVirt.used)|
  {
    var out, frame := k.GetAPage(kind, va);
    running := out != Halt;
    if running {
      FilledHas(old(k.M()), k.ram, k.cur, va / PAGE, [frame]);
      OneWalk(old(k.M()), k.M(), k.cur, va / PAGE, frame);
    }
  }

  /** Any sequence of calls, from any state the allocator can be in, until the first one that
      does not return. Which one that is, and every state on the way, is determined by the
      snapshots. */
  method AnyHistory(k: Memory, ops: seq<Op>) returns (running: bool, ghost trace: seq<Snap>)
    requires k.Valid() && forall i :: 0 <= i < |ops| ==> Covered(ops[i], |k.kernelVirt.used| - 1)
    modifies k
    ensures History(ops, trace) && trace[0] == old(Now(k))
    ensures running ==> |trace| == |ops| + 1 && k.Valid() && trace[|ops|] == Now(k)
    ensures !running ==> |trace| <= |ops| && !Returns(ops[|trace| - 1], trace[|trace| - 1])
  {
    assert Consistent(k.M(), k.own);
    running, trace := true, [Now(k)];
    for i := 0 to |ops|
      invariant History(ops, trace) && trace[0] == old(Now(k))
      invariant running ==>
        |trace| == i + 1 && k.Valid() && trace[i] == Now(k) && |k.kernelVirt.used| == |old(k.kernelVirt.used)|
      invariant !running ==> |trace| <= |ops| && !Returns(ops[|trace| - 1], trace[|trace| - 1])
    {
      if running {
        running := OneCall(k, ops[i]);
        if running {
          trace := trace + [Now(k)];
        }
      }
    }
  }

  // ----- what holds along every history

  lemma StepSurvives(op: Op, s: Snap, s': Snap)
    requires Stepped(op, s, s')
    ensures KeepsWalks(s.m, s'.m.ram) && DirsKept(s.m, s'.m)
  {
  }

  /** Every translation there was in any address space is still there. */
  lemma {:induction false} HistoryKeeps(ops: seq<Op>, trace: seq<Snap>, i: nat, j: nat)
    requires History(ops, trace) && i <= j < |trace|
    ensures KeepsWalks(trace[i].m, trace[j].m.ram) && DirsKept(trace[i].m, trace[j].m)
    decreases j
  {
    if i < j {
      HistoryKeeps(ops, trace, i, j - 1);
      StepSurvives(ops[j - 1], trace[j - 1], trace[j]);
      KeepsTwice(trace[i].m, trace[j - 1].m, trace[j].m.ram);
    }
  }

  /** Whatever has once been mapped in an address space, by malloc_pages, get_a_page or setup_page, user
      mode may read and write from then on. */
  lemma HistoryPermits(ops: seq<Op>, trace: seq<Snap>, i: nat, j: nat, d: FrameNo, va: Word)
    requires History(ops, trace) && i <= j < |trace| && IsDir(trace[i].m, d) && Walk(trace[i].m.ram, d, va).Some?
    ensures UserAccess(trace[i].m.ram, d, va) && UserAccess(trace[j].m.ram, d, va)
  {
    HistoryKeeps(ops, trace, i, j);
    SnapPermits(ops, trace, i, d, va);
    SnapPermits(ops, trace, j, d, va);
  }

  lemma SnapPermits(ops: seq<Op>, trace: seq<Snap>, i: nat, d: FrameNo, va: Word)
    requires History(ops, trace) && i < |trace| && IsDir(trace[i].m, d)
    ensures Walk(trace[i].m.ram, d, va).Some? <==> UserAccess(trace[i].m.ram, d, va)
  {
    HistorySound(ops, trace, i);
    var own: Owners :| Consistent(trace[i].m, own);
    Open(trace[i].m, own);
    MappedPermits(trace[i].m, own, d, va);
  }

  /** All directories translate every kernel address alike and map themselves, in every state. */
  lemma HistoryAgrees(ops: seq<Op>, trace: seq<Snap>, i: nat, d: FrameNo, e: FrameNo, va: Word)
    requires History(ops, trace) && i < |trace| && IsDir(trace[i].m, d) && IsDir(trace[i].m, e)
    ensures SelfMapped(trace[i].m.ram, d)
    ensures KERNEL_PDE <= PdeIdx(va) < 1023 ==> Walk(trace[i].m.ram, d, va) == Walk(trace[i].m.ram, e, va)
  {
    HistorySound(ops, trace, i);
    var own: Owners :| Consistent(trace[i].m, own);
    Open(trace[i].m, own);
    KernelHalfAgrees(trace[i].m, own, d, e, va);
  }

  /** What a process has below the kernel, mapped or not, is changed by its own calls only. */
  lemma StepIsolates(op: Op, s: Snap, s': Snap, p: nat, v: Word)
    requires Stepped(op, s, s') && p < |s.m.procs| && s.cur != p && PdeIdx(v) < KERNEL_PDE
    ensures p < |s'.m.procs| && s'.m.procs[p].dir == s.m.procs[p].dir
    ensures Walk(s'.m.ram, s.m.procs[p].dir, v) == Walk(s.m.ram, s.m.procs[p].dir, v)
  {
    OtherSpace(s, p);
    var d := s.m.procs[p].dir;
    assert IsDir(s.m, d) && PageIn(d, v) < USER_END;
  }

  /** The directory of a process that is not running is not in use. */
  lemma OtherSpace(s: Snap, p: nat)
    requires Sound(s) && p < |s.m.procs| && s.cur != p
    ensures s.m.procs[p].dir != s.dir && s.m.procs[p].dir != BOOT_DIR && IsDir(s.m, s.m.procs[p].dir)
  {
    var own: Owners :| Consistent(s.m, own);
    Open(s.m, own);
    Ranges(s.m, own);
  }

  /** Isolation: along every history, a process's address space below the kernel is the same,
      mapped or not, as long as only others run. */
  lemma {:induction false} HistoryIsolates(ops: seq<Op>, trace: seq<Snap>, i: nat, j: nat, p: nat, v: Word)
    requires History(ops, trace) && i <= j < |trace| && p < |trace[i].m.procs| && PdeIdx(v) < KERNEL_PDE
    requires forall k :: i <= k < j ==> trace[k].cur != p
    ensures p < |trace[j].m.procs| && trace[j].m.procs[p].dir == trace[i].m.procs[p].dir
    ensures Walk(trace[j].m.ram, trace[i].m.procs[p].dir, v) == Walk(trace[i].m.ram, trace[i].m.procs[p].dir, v)
    decreases j - i
  {
    if i < j {
      StepAt(ops, trace, i);
      StepIsolates(ops[i], trace[i], trace[i + 1], p, v);
      HistoryIsolates(ops, trace, i + 1, j, p, v);
    }
  }

  lemma StepAt(ops: seq<Op>, trace: seq<Snap>, i: nat)
    requires History(ops, trace) && i + 1 < |trace|
    ensures Stepped(ops[i], trace[i], trace[i + 1])
  {
  }

  lemma HistorySound(ops: seq<Op>, trace: seq<Snap>, i: nat)
    requires History(ops, trace) && i < |trace|
    ensures Sound(trace[i])
  {
    assert i > 0 ==> Stepped(ops[i - 1], trace[i - 1], trace[i]);
  }

  /** The kernel and user frames a call takes, computed on the memory it finds. */
  ghost function KernelPrice(op: Op, s: Snap): nat {
    match op
    case Malloc(kind, n) =>
      if Grants(s.m, s.dir, kind, s.cur, n)
      then KernelCost(s.m.ram, s.dir, kind, FirstPage(s.m, kind, s.cur, n), n)
      else 0
    case GetPage(kind, va) => KernelCost(s.m.ram, s.dir, kind, va / PAGE, 1)
    case Execute => 25
    case Switch(_) => 0
  }

  ghost function UserPrice(op: Op, s: Snap): nat {
    match op
    case Malloc(kind, n) => if Grants(s.m, s.dir, kind, s.cur, n) then UserCost(kind, n) else 0
    case GetPage(kind, _) => UserCost(kind, 1)
    case Execute => 0
    case Switch(_) => 0
  }

  ghost function KernelTotal(ops: seq<Op>, trace: seq<Snap>, k: nat): nat
    requires k <= |ops| && k <= |trace|
  {
    if k == 0 then 0 else KernelTotal(ops, trace, k - 1) + KernelPrice(ops[k - 1], trace[k - 1])
  }

  ghost function UserTotal(ops: seq<Op>, trace: seq<Snap>, k: nat): nat
    requires k <= |ops| && k <= |trace|
  {
    if k == 0 then 0 else UserTotal(ops, trace, k - 1) + UserPrice(ops[k - 1], trace[k - 1])
  }

  /** The clear bits gone from each pool are exactly what the calls so far cost. */
  lemma {:induction false} HistoryAccounts(ops: seq<Op>, trace: seq<Snap>, k: nat)
    requires History(ops, trace) && k < |trace|
    ensures Clear(trace[k].m.kernelPool.used) == Clear(trace[0].m.kernelPool.used) - KernelTotal(ops, trace, k)
    ensures Clear(trace[k].m.userPool.used) == Clear(trace[0].m.userPool.used) - UserTotal(ops, trace, k)
    decreases k
  {
    if k > 0 {
      HistoryAccounts(ops, trace, k - 1);
      assert Stepped(ops[k - 1], trace[k - 1], trace[k]);
    }
  }

  // ----- runs past the end of a bitmap

  /** The first u flags are those in use, whatever the last one, behind the bitmap, says. */
  predicate Prefix(used: seq<bool>, u: nat) {
    u < |used| && forall i :: 0 <= i < |used| - 1 ==> (used[i] <==> i < u)
  }

  /** The kernel's bits in use come first, and are at least as many as the frames taken. */
  predicate Tidy(m: Mem, u: nat) {
    Prefix(m.kernelVirt.used, u) && Clear(m.kernelPool.used) <= |m.kernelVirt.used| - 1 - u
  }

  /** First fit puts a run behind a prefix of used bits, if it has room there. */
  lemma TakesNext(used: seq<bool>, u: nat, n: nat) returns (r: seq<bool>)
    requires Prefix(used, u) && n > 0 && u + n <= |used| - 1
    ensures Take(used, n) == Some(r) && Prefix(r, u + n) && |r| == |used| && r[|r| - 1] == used[|used| - 1]
  {
    var bits, guard := used[..|used| - 1], used[|used| - 1];
    assert bits + [guard] == used && !bits[u];
    assert ClearRun(used, u, n);
    forall q: nat | q < u ensures !ClearRun(used, q, n) { assert used[q]; }
    assert Answers(At(u), bits, guard, n);
    AnswersUnique(At(u), bits, guard, n);
    r := Marked(used, u, n);
  }

  /** A granted kernel allocation keeps a tidy bitmap tidy and stays inside it: a run that stuck
      out would need more frames than there are. */
  lemma TidyTake(m: Mem, m': Mem, u: nat, n: nat)
    requires Tidy(m, u) && 0 < n <= Clear(m.kernelPool.used)
    requires Take(m.kernelVirt.used, n).Some? &&
      m'.kernelVirt == m.kernelVirt.(used := Take(m.kernelVirt.used, n).value)
    requires Clear(m'.kernelPool.used) == Clear(m.kernelPool.used) - n
    ensures Tidy(m', u + n)
    ensures m'.kernelVirt.used[|m'.kernelVirt.used| - 1] == m.kernelVirt.used[|m.kernelVirt.used| - 1]
  {
    var r := TakesNext(m.kernelVirt.used, u, n);
  }

  /** The three runs of process_execute, one behind the other. */
  lemma TookNext(used: seq<bool>, u: nat)
    requires Prefix(used, u) && u + 25 <= |used| - 1
    ensures Took(used).Some? && Prefix(Took(used).value, u + 25)
    ensures |Took(used).value| == |used| && Took(used).value[|used| - 1] == used[|used| - 1]
  {
    var one := TakesNext(used, u, 1);
    var two := TakesNext(one, u + 1, 23);
    assert TookTwo(used) == Some(two);
    var three := TakesNext(two, u + 24, 1);
  }

  lemma TidyExecute(s: Snap, s': Snap, u: nat)
    requires Tidy(s.m, u) && ExecuteFits(s.m) && Executed(s, s')
    ensures Tidy(s'.m, u + 25)
    ensures s'.m.kernelVirt.used[|s'.m.kernelVirt.used| - 1] == s.m.kernelVirt.used[|s.m.kernelVirt.used| - 1]
  {
    TookNext(s.m.kernelVirt.used, u);
  }

  lemma TidyStep(op: Op, s: Snap, s': Snap, u: nat) returns (u': nat)
    requires Stepped(op, s, s') && Tidy(s.m, u) && !KernelGet(op)
    ensures Tidy(s'.m, u')
    ensures s'.m.kernelVirt.used[|s'.m.kernelVirt.used| - 1] == s.m.kernelVirt.used[|s.m.kernelVirt.used| - 1]
  {
    u' := u;
    match op
    case Malloc(kind, n) =>
      if Grants(s.m, s.dir, kind, s.cur, n) {
        u' := TidyMalloc(s, s', kind, n, u);
      }
    case Execute =>
      TidyExecute(s, s', u);
      u' := u + 25;
    case GetPage(kind, va) => TidyUserPage(s, s', va, u);
    case Switch(_) =>
  }

  lemma TidyMalloc(s: Snap, s': Snap, kind: PoolType, n: nat, u: nat) returns (u': nat)
    requires Sound(s) && Grants(s.m, s.dir, kind, s.cur, n) && Malloced(s, s', kind, n) && Tidy(s.m, u)
    ensures Tidy(s'.m, u')
    ensures s'.m.kernelVirt.used[|s'.m.kernelVirt.used| - 1] == s.m.kernelVirt.used[|s.m.kernelVirt.used| - 1]
  {
    u' := u;
    if kind.KERNEL_POOL? {
      var own: Owners :| Consistent(s.m, own);
      KernelGrants(s.m, own, s.cur, n);
      TidyTake(s.m, s'.m, u, n);
      u' := u + n;
    }
  }

  lemma TidyUserPage(s: Snap, s': Snap, va: Word, u: nat)
    requires GetFits(s, USER_POOL, va) && Gotten(s, s', USER_POOL, va) && Tidy(s.m, u)
    ensures Tidy(s'.m, u)
    ensures s'.m.kernelVirt.used[|s'.m.kernelVirt.used| - 1] == s.m.kernelVirt.used[|s.m.kernelVirt.used| - 1]
  {
  }

  /** The kernel's bitmap is tidy, and the bit behind it is g. */
  ghost predicate Inside(m: Mem, g: bool) {
    (exists u: nat :: Tidy(m, u)) && m.kernelVirt.used[|m.kernelVirt.used| - 1] == g
  }

  predicate KernelGet(op: Op) {
    op.GetPage? && op.kind.KERNEL_POOL?
  }

  lemma InsideStep(op: Op, s: Snap, s': Snap, g: bool)
    requires Stepped(op, s, s') && Inside(s.m, g) && !KernelGet(op)
    ensures Inside(s'.m, g)
  {
    var u: nat :| Tidy(s.m, u);
    var u' := TidyStep(op, s, s', u);
  }

  /** Without get_a_page for the kernel, which nothing in the source calls, a kernel bitmap that
      starts empty never has a run granted that sticks out of it: the bit behind it stays as it
      was, whatever it was. */
  lemma {:induction false} KernelStaysInside(ops: seq<Op>, trace: seq<Snap>, k: nat, g: bool)
    requires History(ops, trace) && k < |trace| && Inside(trace[0].m, g)
    requires forall i :: 0 <= i < |ops| ==> !KernelGet(ops[i])
    ensures Inside(trace[k].m, g)
    decreases k
  {
    if k > 0 {
      KernelStaysInside(ops, trace, k - 1, g);
      InsideStep(ops[k - 1], trace[k - 1], trace[k], g);
    }
  }

  /** No run a request finds can stick out: the bit behind the bitmap or the last one in it is used. */
  predicate Guarded(virt: Virt) {
    |virt.used| >= 2 && (virt.used[|virt.used| - 1] || virt.used[|virt.used| - 2])
  }

  lemma GuardedRunsInside(virt: Virt, n: nat)
    requires Guarded(virt) && n > 0 && Request(virt, n).At?
    ensures Request(virt, n).start + n <= |virt.used| - 1
  {
    if n == 1 {
      OneBit(Bits(virt));
    }
  }

  /** No call clears a bit of a user bitmap. */
  lemma MarksStay(op: Op, s: Snap, s': Snap, p: nat, i: nat)
    requires Stepped(op, s, s') && p < |s.m.procs| && i < |s.m.procs[p].virt.used| && s.m.procs[p].virt.used[i]
    ensures p < |s'.m.procs| && i < |s'.m.procs[p].virt.used| == |s.m.procs[p].virt.used| && s'.m.procs[p].virt.used[i]
  {
    if op.Execute? {
      assert Executed(s, s');
      assert s'.m.procs[..|s.m.procs|][p] == s'.m.procs[p];
    }
  }

  /** get_a_page for the last user page guards the bitmap of the process that calls it. */
  lemma StackPageTaken(s: Snap, s': Snap)
    requires Stepped(GetPage(USER_POOL, 0xc000_0000 - 0x1000), s, s')
    ensures 0 <= s.cur < |s'.m.procs| && Guarded(s'.m.procs[s.cur].virt)
  {
    var own: Owners :| Consistent(s.m, own);
    Open(s.m, own);
  }

  lemma GuardStep(op: Op, s: Snap, s': Snap, p: nat)
    requires Stepped(op, s, s') && p < |s.m.procs| && Guarded(s.m.procs[p].virt)
    ensures p < |s'.m.procs| && Guarded(s'.m.procs[p].virt)
  {
    MarksStay(op, s, s', p, GuardMark(s.m.procs[p].virt));
  }

  /** One of the last two bits, which is set. */
  function GuardMark(v: Virt): (i: nat)
    requires Guarded(v)
    ensures i < |v.used| && v.used[i] && i + 2 >= |v.used|
  {
    if v.used[|v.used| - 1] then |v.used| - 1 else |v.used| - 2
  }

  lemma {:induction false} GuardStays(ops: seq<Op>, trace: seq<Snap>, i: nat, j: nat, p: nat)
    requires History(ops, trace) && i <= j < |trace| && p < |trace[i].m.procs| && Guarded(trace[i].m.procs[p].virt)
    ensures p < |trace[j].m.procs| && Guarded(trace[j].m.procs[p].virt)
    decreases j - i
  {
    if i < j {
      StepAt(ops, trace, i);
      GuardStep(ops[i], trace[i], trace[i + 1], p);
      GuardStays(ops, trace, i + 1, j, p);
    }
  }

  /** Once a process has its stack page (process.c:32-33), every run found in its bitmap, in
      every later state, lies in user space. */
  lemma StackPageGuards(ops: seq<Op>, trace: seq<Snap>, i: nat, j: nat, n: nat)
    requires History(ops, trace) && i < j < |trace| && ops[i] == GetPage(USER_POOL, 0xc000_0000 - 0x1000) && n > 0
    ensures var p := trace[i].cur;
      && 0 <= p < |trace[j].m.procs| && Guarded(trace[j].m.procs[p].virt)
      && (Run(trace[j].m, USER_POOL, p, n).At? ==> FirstPage(trace[j].m, USER_POOL, p, n) + n <= USER_END)
  {
    var p := trace[i].cur;
    assert Stepped(ops[i], trace[i], trace[i + 1]);
    StackPageTaken(trace[i], trace[i + 1]);
    GuardStays(ops, trace, i + 1, j, p);
    HistorySound(ops, trace, j);
    RunsInUserSpace(trace[j].m, p, n);
  }

  lemma RunsInUserSpace(m: Mem, p: nat, n: nat)
    requires (exists own: Owners :: Consistent(m, own)) && p < |m.procs| && Guarded(m.procs[p].virt) && n > 0
    ensures Run(m, USER_POOL, p, n).At? ==> FirstPage(m, USER_POOL, p, n) + n <= USER_END
  {
    var own: Owners :| Consistent(m, own);
    Open(m, own);
    if Run(m, USER_POOL, p, n).At? {
      GuardedRunsInside(m.procs[p].virt, n);
    }
  }

  // ----- from boot

  /** From power-on: however much memory there is from 2 MB on, whatever it holds outside the
      kernel's page tables, whatever bit lies behind the kernel's bitmap, and whatever is called. */
  method FromBoot(before: Ram, allMem: nat, guard: bool, ops: seq<Op>) returns (running: bool, ghost trace: seq<Snap>)
    requires USED_MEM <= allMem < 0x1_0000_0000
    requires forall t: FrameNo, j: Index :: FIRST_TABLE <= t < 512 && (t > FIRST_TABLE || j >= 256) ==>
      !Present(Rd(before, t, j))
    requires forall i :: 0 <= i < |ops| ==> Covered(ops[i], 8 * (FreePages(allMem) / 2 / 8))
    ensures History(ops, trace) && trace[0].cur == -1 && trace[0].m.procs == [] && trace[0].dir == BOOT_DIR
    ensures Clear(trace[0].m.kernelPool.used) == 8 * (FreePages(allMem) / 2 / 8)
    ensures Clear(trace[0].m.userPool.used) == 8 * ((FreePages(allMem) + 1) / 2 / 8)
    ensures |trace[0].m.kernelVirt.used| == 8 * (FreePages(allMem) / 2 / 8) + 1
    ensures (forall i :: 0 <= i < |ops| ==> !KernelGet(ops[i])) ==> forall k :: 0 <= k < |trace| ==>
      Inside(trace[k].m, guard)
    ensures running ==> |trace| == |ops| + 1
    ensures !running ==> |trace| <= |ops| && !Returns(ops[|trace| - 1], trace[|trace| - 1])
  {
    var k := new Memory(before, allMem, guard);
    assert Tidy(k.M(), 0);
    running, trace := AnyHistory(k, ops);
    if forall i :: 0 <= i < |ops| ==> !KernelGet(ops[i]) {
      forall j | 0 <= j < |trace| ensures Inside(trace[j].m, guard) {
        KernelStaysInside(ops, trace, j, guard);
      }
    }
  }
}
