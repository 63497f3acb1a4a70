/** One reader and the keyboard: a queue that only the keyboard interrupt writes and only one
    thread reads never holds a byte while its reader is asleep. */
module ReaderProgress {
  import opened Common
  import opened KernelState
  import opened Scheduling
  import opened Locking
  import opened IoQueues
  import opened KernelSystem
  import opened KernelInvariant
  import opened KernelIo
  import opened KernelSafety

  /** Nobody calls ioq_putchar on q, and only r calls ioq_getchar on it. */
  predicate KeyboardOnly(s: State, a: Action, q: nat, r: Tid) {
    && (a.CallPut? ==> a.q != q)
    && (a.CallGet? && a.q == q ==> s.running == r)
  }

  predicate KeyboardRun(s: State, actions: seq<Action>, q: nat, r: Tid)
    decreases |actions|
  {
    actions == [] ||
    (KeyboardOnly(s, actions[0], q, r) &&
     (Step(s, actions[0]).Next? ==> KeyboardRun(Step(s, actions[0]).s, actions[1..], q, r)))
  }

  /** Between finding the queue empty and sleeping on it. */
  predicate AboutToSleep(th: Thread, q: nat) {
    th.call == GetChar(q) && (th.pc.Down? || th.pc.Hold? || th.pc.Check? || th.pc.One? || th.pc == IoSleep)
  }

  ghost predicate ReaderInv(s: State, q: nat, r: Tid) {
    && (forall t: Tid :: Th(s.threads, t).call != NoCall && Th(s.threads, t).call.q == q ==>
         t == r && Th(s.threads, t).call.GetChar? && !Th(s.threads, t).pc.Retest? && !Th(s.threads, t).pc.Again?)
    && (AboutToSleep(Th(s.threads, r), q) ==> s.running == r && Empty(Qu(s.queues, q)))
    && (Qu(s.queues, q).consumer != None ==> Empty(Qu(s.queues, q)))
  }

  /** Whoever owns the lock of q is inside a call on q, past the test of sema_dowm. */
  lemma OwnerCalls(s: State, q: nat, t: Tid)
    requires Inv(s, true) && Owns(Th(s.threads, t), QueueLock(q))
    ensures Th(s.threads, t).call != NoCall && Th(s.threads, t).call.q == q && !Th(s.threads, t).pc.Down?
  {
    assert LocalOk(Th(s.threads, t), Flag(s, t)) && QueueDepthOk(Th(s.threads, t), q);
  }

  /** Only r can own the lock of q, so r finds it free. */
  lemma LockFree(s: State, q: nat, r: Tid)
    requires Inv(s, true) && ReaderInv(s, q, r)
    requires Th(s.threads, r).call != NoCall && Th(s.threads, r).call.q == q ==> Th(s.threads, r).pc.Down?
    ensures Lk(s.locks, QueueLock(q)).value == 1
  {
    var l := QueueLock(q);
    assert LockOk(s.threads, Lk(s.locks, l), l);
    if Lk(s.locks, l).owner.Some? {
      OwnerCalls(s, q, Lk(s.locks, l).owner.value);
      assert false;
    }
  }

  /** What a step that has nothing to do with q leaves alone. */
  ghost predicate Aside(s: State, s': State, q: nat) {
    && Qu(s'.queues, q) == Qu(s.queues, q)
    && (forall t: Tid :: t != s.running ==>
          Th(s'.threads, t).pc == Th(s.threads, t).pc && Th(s'.threads, t).call == Th(s.threads, t).call)
  }

  lemma DispatchAside(s: State, q: nat)
    requires Dispatch(s).Next?
    ensures Aside(s, Dispatch(s).s, q)
    ensures Th(Dispatch(s).s.threads, s.running).pc == Me(s).pc &&
      Th(Dispatch(s).s.threads, s.running).call == Me(s).call
  {
  }

  lemma ScheduleAside(s: State, q: nat)
    requires Schedule(s).Next?
    ensures Aside(s, Schedule(s).s, q)
    ensures Th(Schedule(s).s.threads, s.running).pc == Me(s).pc &&
      Th(Schedule(s).s.threads, s.running).call == Me(s).call
  {
    if Me(s).status == Running {
      DispatchAside(SetMe(s, Me(s).(status := Ready, ticks := Me(s).priority)).(ready := s.ready + [s.running]), q);
    } else {
      DispatchAside(s, q);
    }
  }

  lemma DownLoopAside(s: State, l: LockId, q: nat)
    requires DownLoop(s, l).Next?
    ensures Aside(s, DownLoop(s, l).s, q) && Th(DownLoop(s, l).s.threads, s.running).call == Me(s).call
  {
    var lk := Lk(s.locks, l);
    if lk.value == 0 {
      var s1 := WithLock(Goto(s, Retest(l)), l, lk.(waiters := lk.waiters + [s.running]));
      ScheduleAside(SetMe(s1, Me(s1).(status := Blocked, savedIf := s1.intr)), q);
    }
  }

  lemma SemaUpAside(s: State, l: LockId, q: nat)
    requires SemaUp(s, l).Next?
    ensures Aside(s, SemaUp(s, l).s, q) && Th(SemaUp(s, l).s.threads, s.running).call == Me(s).call
  {
  }

  lemma StraightAside(s: State, q: nat)
    requires AtLock(Me(s).pc) && !Me(s).pc.Down? && !Me(s).pc.Retest? && !Me(s).pc.Up? && GoStep(s).Next?
    ensures Aside(s, GoStep(s).s, q) && Th(GoStep(s).s.threads, s.running).call == Me(s).call
  {
    if Me(s).pc.Again? || Me(s).pc.Hold? || Me(s).pc.Check? || Me(s).pc.One? {
      AcquireAside(s, q);
    } else {
      ReleaseAside(s, q);
    }
  }

  lemma AcquireAside(s: State, q: nat)
    requires (Me(s).pc.Again? || Me(s).pc.Hold? || Me(s).pc.Check? || Me(s).pc.One?) && GoStep(s).Next?
    ensures Aside(s, GoStep(s).s, q) && Th(GoStep(s).s.threads, s.running).call == Me(s).call
  {
  }

  lemma ReleaseAside(s: State, q: nat)
    requires (Me(s).pc.Many? || Me(s).pc.Less? || Me(s).pc.Last? || Me(s).pc.Drop? || Me(s).pc.Zero?) && GoStep(s).Next?
    ensures Aside(s, GoStep(s).s, q) && Th(GoStep(s).s.threads, s.running).call == Me(s).call
  {
  }

  lemma DownAside(s: State, l: LockId, q: nat)
    requires Me(s).pc == Down(l) && GoStep(s).Next?
    ensures Aside(s, GoStep(s).s, q) && Th(GoStep(s).s.threads, s.running).call == Me(s).call
  {
    var s1 := SetMe(s, Me(s).(oldIf := s.intr)).(intr := false);
    assert GoStep(s) == DownLoop(s1, l);
    DownLoopAside(s1, l, q);
  }

  /** No step of the lock code touches a queue or another thread's place and call. */
  lemma LockGoAside(s: State, q: nat)
    requires AtLock(Me(s).pc) && GoStep(s).Next?
    ensures Aside(s, GoStep(s).s, q) && Th(GoStep(s).s.threads, s.running).call == Me(s).call
  {
    match Me(s).pc
    case Down(l) => DownAside(s, l, q);
    case Retest(l) => DownLoopAside(s, l, q);
    case Up(l) => SemaUpAside(s, l, q);
    case _ => StraightAside(s, q);
  }

  lemma WakesAside(s: State, q: nat, q': nat)
    requires q != q'
    ensures WakeConsumer(s, q').Next? ==>
      Aside(s, WakeConsumer(s, q').s, q) && Th(WakeConsumer(s, q').s.threads, s.running).call == Me(s).call
    ensures WakeProducer(s, q').Next? ==>
      Aside(s, WakeProducer(s, q').s, q) && Th(WakeProducer(s, q').s.threads, s.running).call == Me(s).call
  {
    var qu := Qu(s.queues, q');
    if qu.consumer.Some? {
      UnblockAside(s, qu.consumer.value, q);
    }
    if qu.producer.Some? {
      UnblockAside(s, qu.producer.value, q);
    }
  }

  lemma UnblockAside(s: State, t: Tid, q: nat)
    ensures ThreadUnblock(s, t).Next? ==>
      Aside(s, ThreadUnblock(s, t).s, q) && Th(ThreadUnblock(s, t).s.threads, s.running).call == Me(s).call
  {
  }

  /** A step of a call on another queue has nothing to do with q. */
  lemma CallGoAside(s: State, q: nat)
    requires !AtLock(Me(s).pc) && Me(s).pc != Client && Me(s).call != NoCall && Me(s).call.q != q && GoStep(s).Next?
    ensures Aside(s, GoStep(s).s, q)
    ensures Th(GoStep(s).s.threads, s.running).call == NoCall || Th(GoStep(s).s.threads, s.running).call == Me(s).call
  {
    if Me(s).pc == IoTest {
      TestAside(s, q);
    } else if Me(s).pc == IoSleep {
      WaitAside(s, q);
    }
  }

  lemma TestAside(s: State, q: nat)
    requires Me(s).call != NoCall && Me(s).call.q != q && CallTest(s).Next?
    ensures Aside(s, CallTest(s).s, q)
    ensures var call := Th(CallTest(s).s.threads, s.running).call; call == NoCall || call == Me(s).call
  {
    var q' := Me(s).call.q;
    var qu := if Me(s).call.GetChar? then TakeByte(Qu(s.queues, q')) else AddByte(Qu(s.queues, q'), Me(s).call.byte);
    WakesAside(SetMe(WithQueue(s, q', qu), Me(s).(pc := Client, call := NoCall)), q, q');
  }

  lemma WaitAside(s: State, q: nat)
    requires Me(s).call != NoCall && Me(s).call.q != q && IoWait(s).Next?
    ensures Aside(s, IoWait(s).s, q) && Th(IoWait(s).s.threads, s.running).call == Me(s).call
  {
    var q' := Me(s).call.q;
    var qu := Qu(s.queues, q');
    var slot := if Me(s).call.GetChar? then qu.(consumer := Some(s.running)) else qu.(producer := Some(s.running));
    var s2 := WithQueue(Goto(s, IoSlept), q', slot);
    ScheduleAside(SetMe(s2, Me(s2).(status := Blocked, savedIf := s2.intr)), q);
  }

  /** A step that leaves q alone keeps ReaderInv if it does not bring its own thread onto q,
      or brings r there in a proper way. */
  lemma AsideKeeps(s: State, s': State, q: nat, r: Tid)
    requires ReaderInv(s, q, r) && Aside(s, s', q)
    requires var th := Th(s'.threads, s.running);
      th.call != NoCall && th.call.q == q ==>
        s.running == r && th.call.GetChar? && !th.pc.Retest? && !th.pc.Again? &&
        (AboutToSleep(th, q) ==> s'.running == r && Empty(Qu(s.queues, q)))
    ensures ReaderInv(s', q, r)
  {
  }

  /** The running thread has moved on inside the lock code, and not into the way to its sleep. */
  predicate MovedOn(s: State, s': State, q: nat) {
    var th := Th(s'.threads, s.running);
    && th.call == Me(s).call && !th.pc.Retest? && !th.pc.Again?
    && (AboutToSleep(th, q) ==> s'.running == s.running && AboutToSleep(Me(s), q))
  }

  lemma AcquireMoves(s: State, q: nat)
    requires (Me(s).pc.Hold? || Me(s).pc.Check? || Me(s).pc.One?) && GoStep(s).Next? && Me(s).call != NoCall
    ensures MovedOn(s, GoStep(s).s, q)
  {
  }

  lemma ReleaseMoves(s: State, q: nat)
    requires (Me(s).pc.Many? || Me(s).pc.Less? || Me(s).pc.Last? || Me(s).pc.Drop? || Me(s).pc.Zero?) && GoStep(s).Next?
    ensures MovedOn(s, GoStep(s).s, q)
  {
  }

  lemma UpMoves(s: State, l: LockId, q: nat)
    requires Me(s).pc == Up(l) && SemaUp(s, l).Next? && Me(s).call != NoCall
    ensures MovedOn(s, SemaUp(s, l).s, q)
  {
  }

  /** r moves on inside the lock of q. */
  lemma OwnLockGoKeeps(s: State, q: nat, r: Tid)
    requires Inv(s, true) && ReaderInv(s, q, r)
    requires AtLock(Me(s).pc) && Me(s).call != NoCall && Me(s).call.q == q && GoStep(s).Next?
    ensures ReaderInv(GoStep(s).s, q, r)
  {
    assert LocalOk(Me(s), Flag(s, s.running));
    if Me(s).pc.Down? || Me(s).pc.Up? {
      OwnSemaKeeps(s, q, r);
    } else {
      OwnStraightKeeps(s, q, r);
    }
  }

  lemma OwnSemaKeeps(s: State, q: nat, r: Tid)
    requires Inv(s, true) && ReaderInv(s, q, r) && (Me(s).pc.Down? || Me(s).pc.Up?)
    requires Me(s).call != NoCall && Me(s).call.q == q && GoStep(s).Next?
    ensures ReaderInv(GoStep(s).s, q, r)
  {
    assert LocalOk(Me(s), Flag(s, s.running));
    var l := QueueLock(q);
    if Me(s).pc.Down? {
      LockFree(s, q, r);
      DownAside(s, l, q);
      DownMoves(s, l, q);
    } else {
      SemaUpAside(s, l, q);
      UpMoves(s, l, q);
    }
    OwnMoveKeeps(s, GoStep(s).s, q, r);
  }

  lemma DownMoves(s: State, l: LockId, q: nat)
    requires Me(s).pc == Down(l) && Lk(s.locks, l).value == 1 && Me(s).call != NoCall && Me(s).call.q == q &&
      GoStep(s).Next?
    ensures MovedOn(s, GoStep(s).s, q)
  {
  }

  lemma OwnStraightKeeps(s: State, q: nat, r: Tid)
    requires ReaderInv(s, q, r) && AtLock(Me(s).pc)
    requires !Me(s).pc.Down? && !Me(s).pc.Up? && !Me(s).pc.Retest? && !Me(s).pc.Again?
    requires Me(s).call != NoCall && Me(s).call.q == q && GoStep(s).Next?
    ensures ReaderInv(GoStep(s).s, q, r)
  {
    StraightAside(s, q);
    if Me(s).pc.Hold? || Me(s).pc.Check? || Me(s).pc.One? {
      AcquireMoves(s, q);
    } else {
      ReleaseMoves(s, q);
    }
    OwnMoveKeeps(s, GoStep(s).s, q, r);
  }

  /** r's own move: past the test of sema_dowm it has found the queue empty. */
  lemma OwnMoveKeeps(s: State, s': State, q: nat, r: Tid)
    requires ReaderInv(s, q, r) && Aside(s, s', q) && Me(s).call != NoCall && Me(s).call.q == q && MovedOn(s, s', q)
    ensures ReaderInv(s', q, r)
  {
    AsideKeeps(s, s', q, r);
  }

  /** r tests the loop condition of ioq_getchar. */
  lemma OwnTestKeeps(s: State, q: nat, r: Tid)
    requires Inv(s, true) && ReaderInv(s, q, r)
    requires Me(s).pc == IoTest && Me(s).call == GetChar(q) && GetTest(s, q).Next?
    ensures ReaderInv(GetTest(s, q).s, q, r)
  {
    var qu := Qu(s.queues, q);
    assert qu.consumer.Some? ==> ReaderAsleep(Th(s.threads, qu.consumer.value), q);
    assert qu.producer.Some? ==> WriterAsleep(Th(s.threads, qu.producer.value), q);
    assert Me(s).status == Running;
    if Empty(qu) {
      InvMeOk(s, QueueLock(q));
      assert QueueDepthOk(Me(s), q);
      AsideKeeps(s, GetTest(s, q).s, q, r);
    }
  }

  lemma OwnSleepKeeps(s: State, q: nat, r: Tid)
    requires ReaderInv(s, q, r) && Me(s).pc == IoSleep && Me(s).call == GetChar(q) && IoWait(s).Next?
    ensures ReaderInv(IoWait(s).s, q, r)
  {
    IoWaitIs(s);
    AsleepReader(s, q, r);
    DispatchReader(Asleep(s), q, r);
  }

  lemma AsleepReader(s: State, q: nat, r: Tid)
    requires ReaderInv(s, q, r) && Me(s).pc == IoSleep && Me(s).call == GetChar(q)
    ensures ReaderInv(Asleep(s), q, r) && !AboutToSleep(Th(Asleep(s).threads, r), q)
  {
    assert AboutToSleep(Me(s), q);
  }

  lemma DispatchReader(s: State, q: nat, r: Tid)
    requires ReaderInv(s, q, r) && !AboutToSleep(Th(s.threads, r), q) && Dispatch(s).Next?
    ensures ReaderInv(Dispatch(s).s, q, r)
  {
    DispatchAside(s, q);
    forall t: Tid
      ensures Th(Dispatch(s).s.threads, t).pc == Th(s.threads, t).pc
      ensures Th(Dispatch(s).s.threads, t).call == Th(s.threads, t).call
    {
    }
  }

  lemma GoReader(s: State, q: nat, r: Tid)
    requires Inv(s, true) && ReaderInv(s, q, r) && Me(s).pc != Client && GoStep(s).Next?
    ensures ReaderInv(GoStep(s).s, q, r)
  {
    assert LocalOk(Me(s), Flag(s, s.running));
    if Me(s).call != NoCall && Me(s).call.q == q {
      if AtLock(Me(s).pc) {
        OwnLockGoKeeps(s, q, r);
      } else if Me(s).pc == IoTest {
        OwnTestKeeps(s, q, r);
      } else if Me(s).pc == IoSleep {
        OwnSleepKeeps(s, q, r);
      } else {
        AsideKeeps(s, GoStep(s).s, q, r);
      }
    } else {
      OtherGoKeeps(s, q, r);
    }
  }

  lemma OtherGoKeeps(s: State, q: nat, r: Tid)
    requires Inv(s, true) && ReaderInv(s, q, r) && Me(s).pc != Client && GoStep(s).Next?
    requires Me(s).call != NoCall ==> Me(s).call.q != q
    ensures ReaderInv(GoStep(s).s, q, r)
  {
    assert LocalOk(Me(s), Flag(s, s.running));
    if AtLock(Me(s).pc) { LockGoAside(s, q); } else { CallGoAside(s, q); }
    AsideKeeps(s, GoStep(s).s, q, r);
  }

  lemma KeyReader(s: State, q: nat, r: Tid, q': nat, byte: char)
    requires Inv(s, true) && ReaderInv(s, q, r) && s.intr && KeyPress(s, q', byte).Next?
    ensures ReaderInv(KeyPress(s, q', byte).s, q, r)
  {
    if q != q' {
      WakesAside(WithQueue(s, q', AddByte(Qu(s.queues, q'), byte)), q, q');
      AsideKeeps(s, KeyPress(s, q', byte).s, q, r);
    } else {
      OwnKeyKeeps(s, q, r, byte);
    }
  }

  /** A byte from the keyboard, and the reader is woken. */
  lemma OwnKeyKeeps(s: State, q: nat, r: Tid, byte: char)
    requires Inv(s, true) && ReaderInv(s, q, r) && s.intr && KeyPress(s, q, byte).Next?
    ensures ReaderInv(KeyPress(s, q, byte).s, q, r)
  {
    assert Me(s).call == NoCall by {
      assert LocalOk(Me(s), Flag(s, s.running));
    }
    KeyWakes(s, q, r, byte);
  }

  lemma KeyWakes(s: State, q: nat, r: Tid, byte: char)
    requires ReaderInv(s, q, r) && !AboutToSleep(Th(s.threads, r), q) && KeyPress(s, q, byte).Next?
    ensures ReaderInv(KeyPress(s, q, byte).s, q, r)
  {
    var s1 := WithQueue(s, q, AddByte(Qu(s.queues, q), byte));
    if Qu(s.queues, q).consumer.Some? {
      UnblockAside(s1, Qu(s.queues, q).consumer.value, q);
    }
  }

  lemma StepReader(s: State, a: Action, q: nat, r: Tid)
    requires Inv(s, true) && ReaderInv(s, q, r) && Enabled(s, a) && KeyboardOnly(s, a, q, r) && Step(s, a).Next?
    ensures ReaderInv(Step(s, a).s, q, r)
  {
    assert LocalOk(Me(s), Flag(s, s.running));
    match a
    case Go => GoReader(s, q, r);
    case Key(q', byte) => KeyReader(s, q, r, q', byte);
    case Tick => TickReader(s, q, r);
    case CallGet(q') => CallGetReader(s, q, r, q');
    case CallPut(q', byte) => CallPutReader(s, q, r, q', byte);
    case CallStart(t, priority) => AsideKeeps(s, Step(s, a).s, q, r);
    case CallAcquire(_) => AsideKeeps(s, Step(s, a).s, q, r);
    case CallRelease(_) => AsideKeeps(s, Step(s, a).s, q, r);
    case CallSetIntr(_) => AsideKeeps(s, Step(s, a).s, q, r);
  }

  lemma CallPutReader(s: State, q: nat, r: Tid, q': nat, byte: char)
    requires ReaderInv(s, q, r) && Me(s).pc == Client && q' != q && Step(s, CallPut(q', byte)).Next?
    ensures ReaderInv(Step(s, CallPut(q', byte)).s, q, r)
  {
    TestAside(SetMe(s, Me(s).(pc := IoTest, call := PutChar(q', byte))), q);
    AsideKeeps(s, Step(s, CallPut(q', byte)).s, q, r);
  }

  lemma TickReader(s: State, q: nat, r: Tid)
    requires Inv(s, true) && ReaderInv(s, q, r) && s.intr && ClockTick(s).Next?
    ensures ReaderInv(ClockTick(s).s, q, r)
  {
    assert LocalOk(Me(s), Flag(s, s.running));
    if Me(s).ticks == 0 {
      ScheduleAside(SetMe(s, Me(s).(savedIf := s.intr)), q);
    }
    AsideKeeps(s, ClockTick(s).s, q, r);
  }

  lemma CallGetReader(s: State, q: nat, r: Tid, q': nat)
    requires Inv(s, true) && ReaderInv(s, q, r) && Me(s).pc == Client && (q' == q ==> s.running == r)
    requires s.running != MAIN && !s.intr && Step(s, CallGet(q')).Next?
    ensures ReaderInv(Step(s, CallGet(q')).s, q, r)
  {
    var s' := SetMe(s, Me(s).(pc := IoTest, call := GetChar(q')));
    assert LocalOk(Me(s), Flag(s, s.running));
    if q' == q {
      EnterCallKeeps(s, GetChar(q));
      assert ReaderInv(s', q, r);
      OwnTestKeeps(s', q, r);
    } else {
      OtherGetReader(s, q, r, q');
    }
  }

  lemma OtherGetReader(s: State, q: nat, r: Tid, q': nat)
    requires ReaderInv(s, q, r) && Me(s).pc == Client && q' != q && Step(s, CallGet(q')).Next?
    ensures ReaderInv(Step(s, CallGet(q')).s, q, r)
  {
    TestAside(SetMe(s, Me(s).(pc := IoTest, call := GetChar(q'))), q);
    AsideKeeps(s, Step(s, CallGet(q')).s, q, r);
  }

  lemma {:induction false} RunReader(s: State, actions: seq<Action>, q: nat, r: Tid)
    requires Inv(s, true) && ReaderInv(s, q, r) && Obeys(s, actions) && KeyboardRun(s, actions, q, r)
    ensures Run(s, actions).Next? && ReaderInv(Run(s, actions).s, q, r)
    decreases |actions|
  {
    if actions != [] {
      StepKeeps(s, actions[0]);
      StepReader(s, actions[0], q, r);
      RunReader(Step(s, actions[0]).s, actions[1..], q, r);
    }
  }

  /** With one reader and the keyboard as the only writer, a sleeping reader means that the
      queue is empty, after any run; and nobody ever waits to write. */
  lemma NoByteWaitsForASleeper(actions: seq<Action>, q: nat, r: Tid)
    requires Obeys(BOOT, actions) && KeyboardRun(BOOT, actions, q, r)
    ensures Run(BOOT, actions).Next?
    ensures var qu := Qu(Run(BOOT, actions).s.queues, q);
      (qu.consumer != None ==> Pending(qu) == []) && qu.producer == None
  {
    BootOk();
    RunReader(BOOT, actions, q, r);
    RunKeeps(BOOT, actions);
    var s := Run(BOOT, actions).s;
    var qu := Qu(s.queues, q);
    assert qu.producer.Some? ==> WriterAsleep(Th(s.threads, qu.producer.value), q);
  }
}
