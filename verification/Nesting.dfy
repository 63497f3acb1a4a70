/** Mutual exclusion and recursion, read off the calls alone: how often a thread has acquired a lock
    and not released it is counted from the actions of a run, not from what the lock code records. */
module Nesting {
  import opened Common
  import opened KernelState
  import opened Scheduling
  import opened Locking
  import opened IoQueues
  import opened KernelSystem
  import opened KernelInvariant
  import opened KernelSteps
  import opened KernelIo
  import opened KernelSafety
  import opened StepFrame

  /** What an action of the running thread adds to its calls on lock l. */
  function Delta(a: Action, l: nat): int {
    if a == CallAcquire(l) then 1 else if a == CallRelease(l) then -1 else 0
  }

  /** The calls of lock_acquire(l) by thread t in a run, minus those of lock_release(l). */
  function Calls(s: State, actions: seq<Action>, t: Tid, l: nat): int
    decreases |actions|
  {
    if actions == [] then 0 else
    (if s.running == t then Delta(actions[0], l) else 0) +
    (var o := Step(s, actions[0]); if o.Panic? then 0 else Calls(o.s, actions[1..], t, l))
  }

  /** Thread th has called lock_acquire for lock l and is still in it. */
  predicate Acquiring(th: Thread, l: LockId) {
    && (th.pc.Again? || th.pc.Down? || th.pc.Retest? || th.pc.Hold? || th.pc.Check? || th.pc.One?)
    && th.pc.l == l
  }

  /** ... has called lock_release and has not given up a level or the lock yet. */
  predicate Releasing(th: Thread, l: LockId) {
    (th.pc.Many? || th.pc.Less? || th.pc.Last? || th.pc.Drop?) && th.pc.l == l
  }

  /** The acquires of l by t that have returned, minus the releases begun: the sections of l that t
      is inside of. */
  function Sections(s: State, actions: seq<Action>, t: Tid, l: nat): int {
    var o := Run(s, actions);
    Calls(s, actions, t, l) - if o.Next? && Acquiring(Th(o.s.threads, t), Plain(l)) then 1 else 0
  }

  // ----- one step

  function Owed(th: Thread, l: LockId): int {
    if Acquiring(th, l) then 1 else if Releasing(th, l) then -1 else 0
  }

  function Called(th: Thread, l: LockId): int {
    Depth(th, l) + Owed(th, l)
  }

  /** A thread that goes for the semaphore of a lock is not inside a section of that lock. */
  predicate NotTwice(th: Thread) {
    th.pc.Down? || th.pc.Retest? ==> Depth(th, th.pc.l) == 0
  }

  lemma OthersCalled(s: State, s': State, t: Tid, l: LockId)
    requires Frame(s, s') && t != s.running
    ensures Called(Th(s'.threads, t), l) == Called(Th(s.threads, t), l)
    ensures NotTwice(Th(s'.threads, t)) == NotTwice(Th(s.threads, t))
  {
    assert Spared(Th(s.threads, t), Th(s'.threads, t));
  }

  /** What a thread record shows of its calls on lock l. */
  predicate SameCalls(th: Thread, th': Thread, l: LockId) {
    Called(th', l) == Called(th, l) && NotTwice(th')
  }

  lemma Unowed(th: Thread, th': Thread, l: LockId)
    requires th'.depth == th.depth && Owed(th', l) == Owed(th, l) && !th'.pc.Down? && !th'.pc.Retest?
    ensures SameCalls(th, th', l)
  {
  }

  /** A thread that stays where it is, ... */
  lemma PlaceKept(th: Thread, th': Thread, l: LockId)
    requires th'.depth == th.depth && th'.pc == th.pc && NotTwice(th)
    ensures SameCalls(th, th', l)
  {
  }

  /** ... or goes from a place that owes nothing to another. */
  lemma PlaceFree(th: Thread, th': Thread, l: LockId)
    requires th'.depth == th.depth && Free(th.pc, l) && Free(th'.pc, l) && !th'.pc.Down? && !th'.pc.Retest?
    ensures SameCalls(th, th', l)
  {
  }

  /** A place outside the code of lock l, or at its very end. */
  predicate Free(pc: Pc, l: LockId) {
    !AtLock(pc) || pc.l != l || pc.Zero? || pc.Up?
  }

  /** The running thread's record after a step inside the code of lock k. */
  lemma AcquireCalled(s: State, k: LockId, l: LockId)
    requires (Me(s).pc == Again(k) || Me(s).pc == One(k)) && GoStep(s).Next?
    ensures SameCalls(Me(s), Me(GoStep(s).s), l)
  {
    var th := Me(GoStep(s).s);
    assert th.pc == AfterAcquire(Me(s));
    assert Depth(th, l) == Depth(Me(s), l) + if l == k then 1 else 0;
  }

  lemma TakenCalled(s: State, k: LockId, l: LockId)
    requires (Me(s).pc == Hold(k) || Me(s).pc == Check(k)) && GoStep(s).Next?
    ensures SameCalls(Me(s), Me(GoStep(s).s), l)
  {
    Unowed(Me(s), Me(GoStep(s).s), l);
  }

  lemma ManyCalled(s: State, k: LockId, l: LockId)
    requires (Me(s).pc == Many(k) || Me(s).pc == Last(k) || Me(s).pc == Zero(k)) && GoStep(s).Next?
    ensures SameCalls(Me(s), Me(GoStep(s).s), l)
  {
    Unowed(Me(s), Me(GoStep(s).s), l);
  }

  lemma LessCalled(s: State, k: LockId, l: LockId)
    requires (Me(s).pc == Less(k) || Me(s).pc == Pc.Drop(k)) && GoStep(s).Next?
    requires if Me(s).pc.Less? then Depth(Me(s), k) > 0 else Depth(Me(s), k) == 1
    ensures SameCalls(Me(s), Me(GoStep(s).s), l)
  {
    var th := Me(GoStep(s).s);
    assert Depth(th, l) == Depth(Me(s), l) - if l == k then 1 else 0;
  }

  lemma SemaCalled(s: State, k: LockId, l: LockId)
    requires Inv(s, true) && (Me(s).pc == Down(k) || Me(s).pc == Retest(k)) && NotTwice(Me(s))
    ensures GoStep(s).Next? && SameCalls(Me(s), Th(GoStep(s).s.threads, s.running), l)
  {
    GoKeeps(s);
    if Lk(s.locks, k).value == 0 {
      BlockFrame(s, k);
    } else {
      TakeFrame(s, k);
    }
    StillAcquiring(Me(s), Th(GoStep(s).s.threads, s.running), k, l);
  }

  lemma StillAcquiring(th: Thread, th': Thread, k: LockId, l: LockId)
    requires (th.pc == Down(k) || th.pc == Retest(k)) && (th'.pc == Retest(k) || th'.pc == Hold(k))
    requires th'.depth == th.depth && NotTwice(th)
    ensures SameCalls(th, th', l)
  {
  }

  lemma UpCalled(s: State, k: LockId, l: LockId)
    requires Inv(s, true) && Me(s).pc == Up(k)
    ensures GoStep(s).Next? && SameCalls(Me(s), Th(GoStep(s).s.threads, s.running), l)
  {
    UpFrame(s, k);
    PlaceFree(Me(s), Me(GoStep(s).s), l);
  }

  lemma StraightCalled(s: State, k: LockId, l: LockId)
    requires MeOk(s, k) && AtLock(Me(s).pc) && Me(s).pc.l == k && GoStep(s).Next?
    requires !Me(s).pc.Down? && !Me(s).pc.Retest? && !Me(s).pc.Up?
    ensures SameCalls(Me(s), Me(GoStep(s).s), l)
  {
    assert Owns(Me(s), k) <==> Lk(s.locks, k).owner == Some(s.running);
    if Me(s).pc.Again? || Me(s).pc.One? {
      AcquireCalled(s, k, l);
    } else if Me(s).pc.Hold? || Me(s).pc.Check? {
      TakenCalled(s, k, l);
    } else if Me(s).pc.Less? || Me(s).pc.Drop? {
      assert LocalOk(Me(s), s.intr);
      LessCalled(s, k, l);
    } else {
      ManyCalled(s, k, l);
    }
  }

  lemma LockCalled(s: State, l: LockId)
    requires Inv(s, true) && AtLock(Me(s).pc) && NotTwice(Me(s))
    ensures GoStep(s).Next? && SameCalls(Me(s), Th(GoStep(s).s.threads, s.running), l)
  {
    GoKeeps(s);
    var k := Me(s).pc.l;
    match Me(s).pc
    case Down(_) => SemaCalled(s, k, l);
    case Retest(_) => SemaCalled(s, k, l);
    case Up(_) => UpCalled(s, k, l);
    case _ => RestCalled(s, k, l);
  }

  lemma RestCalled(s: State, k: LockId, l: LockId)
    requires Inv(s, true) && AtLock(Me(s).pc) && Me(s).pc.l == k
    requires !Me(s).pc.Down? && !Me(s).pc.Retest? && !Me(s).pc.Up?
    ensures GoStep(s).Next? && SameCalls(Me(s), Th(GoStep(s).s.threads, s.running), l)
  {
    InvMeOk(s, k);
    GoStays(s);
    StraightCalled(s, k, l);
  }

  /** A thread that is not inside a section finds another holder or none, and goes for the semaphore. */
  lemma TestedCalled(s: State, k: LockId, l: LockId)
    requires MeOk(s, k) && Neutral(Me(s).pc)
    ensures TestHolder(s, k).Next? && Depth(Me(TestHolder(s, k).s), l) == Depth(Me(s), l)
    ensures Owed(Me(TestHolder(s, k).s), l) == if l == k then 1 else 0
    ensures NotTwice(Me(TestHolder(s, k).s))
  {
  }

  /** A queue call goes for the queue's own lock only. */
  lemma TestCalled(s: State, l: nat)
    requires Me(s).pc == IoTest && Me(s).call != NoCall && MeOk(s, QueueLock(Me(s).call.q)) && CallTest(s).Next?
    ensures SameCalls(Me(s), Me(CallTest(s).s), Plain(l))
  {
    TestedCalled(s, QueueLock(Me(s).call.q), Plain(l));
    LeftCalled(s);
    if Me(CallTest(s).s).pc == Client {
      PlaceFree(Me(s), Me(CallTest(s).s), Plain(l));
    }
  }

  lemma LeftCalled(s: State)
    requires Me(s).call != NoCall && CallTest(s).Next?
    ensures CallTest(s) == TestHolder(s, QueueLock(Me(s).call.q)) ||
      (Me(CallTest(s).s).pc == Client && Me(CallTest(s).s).depth == Me(s).depth)
  {
    var left := Me(s).(pc := Client, call := NoCall);
    var q := Me(s).call.q;
    match Me(s).call
    case GetChar(_) => WokenMe(SetMe(WithQueue(s, q, TakeByte(Qu(s.queues, q))), left), q);
    case PutChar(_, byte) => WokenMe(SetMe(WithQueue(s, q, AddByte(Qu(s.queues, q), byte)), left), q);
  }

  /** Waking somebody leaves the place of whoever does it alone. */
  lemma WokenMe(s: State, q: nat)
    ensures WakeProducer(s, q).Next? ==> SamePlace(Me(s), Me(WakeProducer(s, q).s))
    ensures WakeConsumer(s, q).Next? ==> SamePlace(Me(s), Me(WakeConsumer(s, q).s))
  {
    if Qu(s.queues, q).producer.Some? {
      UnblockedMe(s, Qu(s.queues, q).producer.value);
    }
    if Qu(s.queues, q).consumer.Some? {
      UnblockedMe(s, Qu(s.queues, q).consumer.value);
    }
  }

  predicate SamePlace(th: Thread, th': Thread) {
    th'.pc == th.pc && th'.depth == th.depth
  }

  lemma UnblockedMe(s: State, t: Tid)
    ensures ThreadUnblock(s, t).Next? ==> SamePlace(Me(s), Me(ThreadUnblock(s, t).s))
  {
  }

  lemma QueueCalled(s: State, l: nat)
    requires Inv(s, true) && (Me(s).pc == IoTest || Me(s).pc == IoSleep || Me(s).pc == IoSlept)
    ensures GoStep(s).Next? && SameCalls(Me(s), Th(GoStep(s).s.threads, s.running), Plain(l))
  {
    GoKeeps(s);
    assert LocalOk(Me(s), Flag(s, s.running));
    if Me(s).pc == IoTest {
      InvMeOk(s, QueueLock(Me(s).call.q));
      TestFrame(s);
      TestCalled(s, l);
    } else if Me(s).pc == IoSleep {
      SleepCalled(s, l);
    } else {
      ResumeCalled(s, l);
    }
  }

  lemma SleepCalled(s: State, l: nat)
    requires Inv(s, true) && Me(s).pc == IoSleep
    ensures GoStep(s).Next? && SameCalls(Me(s), Th(GoStep(s).s.threads, s.running), Plain(l))
  {
    SleepFrame(s);
    PlaceFree(Me(s), Th(GoStep(s).s.threads, s.running), Plain(l));
  }

  lemma ResumeCalled(s: State, l: nat)
    requires Me(s).pc == IoSlept && Me(s).call != NoCall && GoStep(s).Next?
    ensures SameCalls(Me(s), Th(GoStep(s).s.threads, s.running), Plain(l))
  {
    assert GoStep(s) == Release(s, QueueLock(Me(s).call.q));
    PlaceFree(Me(s), Th(GoStep(s).s.threads, s.running), Plain(l));
  }

  /** The running thread's own step: what it records of its calls on l changes by what it calls. */
  lemma MyCalls(s: State, a: Action, l: nat)
    requires Inv(s, true) && Enabled(s, a) && Legal(s, a) && !a.CallStart? && NotTwice(Me(s))
    ensures Step(s, a).Next?
    ensures var th := Th(Step(s, a).s.threads, s.running);
      Called(th, Plain(l)) == Called(Me(s), Plain(l)) + Delta(a, l) && NotTwice(th)
  {
    StepKeeps(s, a);
    match a
    case Go => GoCalls(s, l);
    case Tick => TickCalls(s, Plain(l));
    case Key(q, byte) => KeyCalls(s, q, byte, Plain(l));
    case CallGet(q) => EnteredCalls(s, GetChar(q), l);
    case CallPut(q, byte) => EnteredCalls(s, PutChar(q, byte), l);
    case CallAcquire(k) => AcquiredCalls(s, k, l);
    case CallRelease(k) => ReleasedCalls(s, Plain(k), Plain(l));
    case CallSetIntr(on) => PlaceKept(Me(s), Me(Step(s, a).s), Plain(l));
  }

  lemma GoCalls(s: State, l: nat)
    requires Inv(s, true) && Me(s).pc != Client && NotTwice(Me(s))
    ensures GoStep(s).Next? && SameCalls(Me(s), Th(GoStep(s).s.threads, s.running), Plain(l))
  {
    if AtLock(Me(s).pc) {
      LockCalled(s, Plain(l));
    } else {
      QueueCalled(s, l);
    }
  }

  lemma AcquiredCalls(s: State, k: nat, l: nat)
    requires Inv(s, true) && Me(s).pc == Client
    ensures TestHolder(s, Plain(k)).Next?
    ensures var th := Me(TestHolder(s, Plain(k)).s);
      Called(th, Plain(l)) == Called(Me(s), Plain(l)) + (if l == k then 1 else 0) && NotTwice(th)
  {
    InvMeOk(s, Plain(k));
    TestedCalled(s, Plain(k), Plain(l));
  }

  lemma ReleasedCalls(s: State, k: LockId, l: LockId)
    requires Release(s, k).Next? && Me(s).pc == Client
    ensures var th := Me(Release(s, k).s); Called(th, l) == Called(Me(s), l) - (if l == k then 1 else 0) && NotTwice(th)
  {
  }

  lemma TickCalls(s: State, l: LockId)
    requires Inv(s, true) && s.intr && NotTwice(Me(s))
    ensures ClockTick(s).Next? && SameCalls(Me(s), Th(ClockTick(s).s.threads, s.running), l)
  {
    TickFrame(s);
    PlaceKept(Me(s), Th(ClockTick(s).s.threads, s.running), l);
  }

  lemma KeyCalls(s: State, q: nat, byte: char, l: LockId)
    requires KeyPress(s, q, byte).Next? && NotTwice(Me(s))
    ensures SameCalls(Me(s), Th(KeyPress(s, q, byte).s.threads, s.running), l)
  {
    WokenMe(WithQueue(s, q, AddByte(Qu(s.queues, q), byte)), q);
    PlaceKept(Me(s), Me(KeyPress(s, q, byte).s), l);
  }

  lemma EnteredCalls(s: State, call: Call, l: nat)
    requires Inv(s, true) && Me(s).pc == Client && call != NoCall && !s.intr && s.running != MAIN
    requires CallTest(Entered(s, call)).Next?
    ensures SameCalls(Me(s), Th(CallTest(Entered(s, call)).s.threads, s.running), Plain(l))
  {
    var s1 := Entered(s, call);
    EnterCallKeeps(s, call);
    InvMeOk(s1, QueueLock(call.q));
    TestFrame(s1);
    TestCalled(s1, l);
    PlaceFree(Me(s), Me(s1), Plain(l));
  }

  // ----- every step and every run

  lemma StepCalls(s: State, a: Action, t: Tid, l: nat)
    requires Inv(s, true) && Enabled(s, a) && Legal(s, a) && NotTwice(Th(s.threads, t))
    ensures Step(s, a).Next?
    ensures var th := Th(Step(s, a).s.threads, t);
      && Called(th, Plain(l)) == Called(Th(s.threads, t), Plain(l)) + (if t == s.running then Delta(a, l) else 0)
      && NotTwice(th)
  {
    StepKeeps(s, a);
    if a.CallStart? {
      StartMakes(s, a.t, a.priority);
      assert a.t != s.running;
    } else if t == s.running {
      MyCalls(s, a, l);
    } else {
      StepSpares(s, a);
      OthersCalled(s, Step(s, a).s, t, Plain(l));
    }
  }

  lemma {:induction false} RunCalls(s: State, actions: seq<Action>, t: Tid, l: nat)
    requires Inv(s, true) && Obeys(s, actions) && NotTwice(Th(s.threads, t))
    ensures Run(s, actions).Next? && NotTwice(Th(Run(s, actions).s.threads, t))
    ensures Called(Th(Run(s, actions).s.threads, t), Plain(l)) ==
      Called(Th(s.threads, t), Plain(l)) + Calls(s, actions, t, l)
    decreases |actions|
  {
    if actions != [] {
      StepKeeps(s, actions[0]);
      StepCalls(s, actions[0], t, l);
      RunCalls(Step(s, actions[0]).s, actions[1..], t, l);
    }
  }

  lemma SectionsCounted(actions: seq<Action>, t: Tid, l: nat)
    requires Obeys(BOOT, actions)
    ensures Run(BOOT, actions).Next?
    ensures var th := Th(Run(BOOT, actions).s.threads, t);
      Sections(BOOT, actions, t, l) == Depth(th, Plain(l)) - (if Releasing(th, Plain(l)) then 1 else 0) && NotTwice(th)
  {
    BootOk();
    RunCalls(BOOT, actions, t, l);
  }

  /** The sections of a lock a thread is inside of, counted from its calls, are never negative, and
      between two calls they are what the lock records for its holder. */
  lemma CountIsNesting(actions: seq<Action>, t: Tid, l: nat)
    requires Obeys(BOOT, actions)
    ensures Run(BOOT, actions).Next? && Sections(BOOT, actions, t, l) >= 0
    ensures var s := Run(BOOT, actions).s; var lk := Lk(s.locks, Plain(l));
      Th(s.threads, t).pc == Client ==>
        && Sections(BOOT, actions, t, l) == Calls(BOOT, actions, t, l)
        && Calls(BOOT, actions, t, l) == if lk.holder == Some(t) then lk.repeat else 0
  {
    BootOk();
    RunKeeps(BOOT, actions);
    SectionsCounted(actions, t, l);
    var s := Run(BOOT, actions).s;
    HolderCounts(s, t, Plain(l));
  }

  lemma HolderCounts(s: State, t: Tid, l: LockId)
    requires Inv(s, true)
    ensures var th, lk := Th(s.threads, t), Lk(s.locks, l);
      && (th.pc == Client ==> Depth(th, l) == if lk.holder == Some(t) then lk.repeat else 0)
      && (Releasing(th, l) ==> Depth(th, l) > 0)
      && (Depth(th, l) > 0 ==> lk.owner == Some(t))
      && (Depth(th, l) > 0 && th.pc != Zero(l) ==> lk.holder == Some(t))
  {
    var lk := Lk(s.locks, l);
    assert LockOk(s.threads, lk, l) && LocalOk(Th(s.threads, t), Flag(s, t));
    assert Owns(Th(s.threads, t), l) <==> lk.owner == Some(t);
  }

  /** Mutual exclusion, from the calls alone: at any moment of any run at most one thread is inside
      sections of a lock, as many as it has acquired and not released; inner releases leave it there,
      so nobody else gets in between. */
  lemma SectionsExclude(actions: seq<Action>, l: nat, t: Tid, u: Tid)
    requires Obeys(BOOT, actions)
    requires Sections(BOOT, actions, t, l) > 0 && Sections(BOOT, actions, u, l) > 0
    ensures t == u && Run(BOOT, actions).Next?
    ensures Lk(Run(BOOT, actions).s.locks, Plain(l)).value == 0
    ensures Lk(Run(BOOT, actions).s.locks, Plain(l)).holder == Some(t)
  {
    BootOk();
    RunKeeps(BOOT, actions);
    var s := Run(BOOT, actions).s;
    SectionsCounted(actions, t, l);
    SectionsCounted(actions, u, l);
    HolderCounts(s, t, Plain(l));
    HolderCounts(s, u, Plain(l));
    assert LockOk(s.threads, Lk(s.locks, Plain(l)), Plain(l));
  }

  /** A thread inside a section of a lock never waits for that lock: acquiring it again only counts. */
  lemma HolderNeverWaits(actions: seq<Action>, t: Tid, l: nat)
    requires Obeys(BOOT, actions) && Sections(BOOT, actions, t, l) > 0
    ensures Run(BOOT, actions).Next?
    ensures var th := Th(Run(BOOT, actions).s.threads, t);
      th.pc != Down(Plain(l)) && th.pc != Retest(Plain(l)) && t !in Lk(Run(BOOT, actions).s.locks, Plain(l)).waiters
  {
    BootOk();
    RunKeeps(BOOT, actions);
    SectionsCounted(actions, t, l);
    var s := Run(BOOT, actions).s;
    assert t in Lk(s.locks, Plain(l)).waiters <==> WaitsOn(Th(s.threads, t), Plain(l));
  }

  /** Release what you acquired: a release is allowed exactly in a section. */
  lemma ReleaseInSection(actions: seq<Action>, l: nat)
    requires Obeys(BOOT, actions)
    ensures Run(BOOT, actions).Next?
    ensures var s := Run(BOOT, actions).s;
      Enabled(s, CallRelease(l)) ==>
        (Step(s, CallRelease(l)).Next? <==> Calls(BOOT, actions, s.running, l) > 0)
  {
    BootOk();
    RunKeeps(BOOT, actions);
    var s := Run(BOOT, actions).s;
    SectionsCounted(actions, s.running, l);
    if Enabled(s, CallRelease(l)) {
      StepKeeps(s, CallRelease(l));
    }
  }
}
