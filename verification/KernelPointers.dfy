/** Whatever a step follows a pointer to is there. */
module KernelPointers {
  import opened Common
  import opened KernelState
  import opened Scheduling
  import opened Locking
  import opened IoQueues
  import opened KernelSystem
  import opened KernelInvariant
  import opened KernelSafety

  predicate AtKnown(th: Thread, locks: set<LockId>, queues: set<nat>) {
    && (AtLock(th.pc) ==> th.pc.l in locks)
    && (th.call != NoCall ==> th.call.q in queues)
  }

  /** The lock and the queue a thread is busy with have been initialized, and a queue's lock
      with the queue. */
  ghost predicate Known(s: State) {
    && MAIN in s.threads
    && (forall q :: q in s.queues ==> QueueLock(q) in s.locks)
    && forall t: Tid :: AtKnown(Th(s.threads, t), s.locks.Keys, s.queues.Keys)
  }

  /** The kinds of pointers; naming them keeps what is said of a kind folded where it is not used. */
  datatype Pointers = Places | Waiters | Slots

  ghost predicate Points(s: State, p: Pointers) {
    match p
    case Places => Known(s)
    case Waiters => forall l, t :: t in Lk(s.locks, l).waiters ==> t in s.threads
    case Slots =>
      forall q: nat :: var qu := Qu(s.queues, q);
        (qu.consumer.Some? ==> qu.consumer.value in s.threads) && (qu.producer.Some? ==> qu.producer.value in s.threads)
  }

  /** What the threads are at has been initialized, and whoever waits for a lock or sleeps in a
      slot has a control block. */
  ghost predicate Linked(s: State) {
    forall p: Pointers :: Points(s, p)
  }

  /** What an action is asked for has been initialized; a new thread has a new control block. */
  predicate Asked(s: State, a: Action) {
    match a
    case CallAcquire(l) => Plain(l) in s.locks
    case CallRelease(l) => Plain(l) in s.locks
    case CallGet(q) => q in s.queues
    case CallPut(q, _) => q in s.queues
    case Key(q, _) => q in s.queues
    case CallStart(t, _) => t !in s.threads
    case _ => true
  }

  lemma InvLinked(s: State)
    requires Inv(s, true) && Known(s)
    ensures Linked(s)
  {
    forall l, t | t in Lk(s.locks, l).waiters ensures t in s.threads {
      assert WaitsOn(Th(s.threads, t), l);
    }
    forall q: nat | Qu(s.queues, q).consumer.Some? ensures Qu(s.queues, q).consumer.value in s.threads {
      assert ReaderAsleep(Th(s.threads, Qu(s.queues, q).consumer.value), q);
    }
    forall q: nat | Qu(s.queues, q).producer.Some? ensures Qu(s.queues, q).producer.value in s.threads {
      assert WriterAsleep(Th(s.threads, Qu(s.queues, q).producer.value), q);
    }
    assert Points(s, Places) && Points(s, Waiters) && Points(s, Slots);
  }

  // ----- no step loses sight of what it needs

  lemma ScheduleKnown(s: State)
    requires Known(s) && Schedule(s).Next?
    ensures Known(Schedule(s).s)
  {
    if Me(s).status == Running {
      assert AtKnown(Me(s), s.locks.Keys, s.queues.Keys);
      var th := Me(s).(status := Ready, ticks := Me(s).priority);
      MoveKnown(s, th);
      DispatchKnown(SetMe(s, th).(ready := s.ready + [s.running]));
    } else {
      DispatchKnown(s);
    }
  }

  lemma DispatchKnown(s: State)
    requires Known(s) && Dispatch(s).Next?
    ensures Known(Dispatch(s).s)
  {
    assert AtKnown(Th(s.threads, s.ready[0]), s.locks.Keys, s.queues.Keys);
  }

  lemma UnblockKnown(s: State, t: Tid)
    requires Known(s) && ThreadUnblock(s, t).Next?
    ensures Known(ThreadUnblock(s, t).s)
  {
  }

  lemma BlockKnown(s: State)
    requires Known(s) && ThreadBlock(s).Next?
    ensures Known(ThreadBlock(s).s)
  {
    ScheduleKnown(SetMe(s, Me(s).(status := Blocked, savedIf := s.intr)));
  }

  lemma MoveKnown(s: State, th: Thread)
    requires Known(s) && AtKnown(th, s.locks.Keys, s.queues.Keys)
    ensures Known(SetMe(s, th))
  {
  }

  lemma LockKnown(s: State, l: LockId, lk: Lock)
    requires Known(s) && l in s.locks
    ensures Known(WithLock(s, l, lk)) && Me(WithLock(s, l, lk)) == Me(s)
  {
  }

  lemma QueueKnown(s: State, q: nat, qu: Queue)
    requires Known(s) && q in s.queues
    ensures Known(WithQueue(s, q, qu)) && Me(WithQueue(s, q, qu)) == Me(s)
  {
  }

  /** The running thread gets to a point at lock l, which is written. */
  lemma AtLockKnown(s: State, pc: Pc, l: LockId, lk: Lock)
    requires Known(s) && l in s.locks && AtLock(pc) && pc.l == l
    ensures Known(WithLock(Goto(s, pc), l, lk))
  {
    assert AtKnown(Me(s), s.locks.Keys, s.queues.Keys);
    MoveKnown(s, Me(s).(pc := pc));
    LockKnown(Goto(s, pc), l, lk);
  }

  lemma DownKnown(s: State, l: LockId)
    requires Known(s) && l in s.locks && DownLoop(s, l).Next?
    ensures Known(DownLoop(s, l).s)
  {
    var lk := Lk(s.locks, l);
    if lk.value == 0 {
      AtLockKnown(s, Retest(l), l, lk.(waiters := lk.waiters + [s.running]));
      BlockKnown(WithLock(Goto(s, Retest(l)), l, lk.(waiters := lk.waiters + [s.running])));
    } else {
      AtLockKnown(s, Hold(l), l, lk.(value := lk.value - 1, owner := Some(s.running)));
    }
  }

  lemma DownEntryKnown(s: State, l: LockId)
    requires Known(s) && l in s.locks && SemaDown(s, l).Next?
    ensures Known(SemaDown(s, l).s)
  {
    assert AtKnown(Me(s), s.locks.Keys, s.queues.Keys);
    MoveKnown(s, Me(s).(oldIf := s.intr));
    DownKnown(SetMe(s, Me(s).(oldIf := s.intr)).(intr := false), l);
  }

  lemma UpKnown(s: State, l: LockId)
    requires Known(s) && l in s.locks && SemaUp(s, l).Next?
    ensures Known(SemaUp(s, l).s)
  {
    var lk := Lk(s.locks, l);
    if lk.waiters != [] {
      LockKnown(s, l, lk.(waiters := lk.waiters[1..]));
      UnblockKnown(WithLock(s, l, lk.(waiters := lk.waiters[1..])), lk.waiters[0]);
    }
    GiveKnown(WakeWaiter(s, l).s, l);
  }

  lemma GiveKnown(s: State, l: LockId)
    requires Known(s) && l in s.locks && SemaGive(s, l).Next?
    ensures Known(SemaGive(s, l).s)
  {
    assert AtKnown(Me(s), s.locks.Keys, s.queues.Keys);
    var given := Lk(s.locks, l).(value := Lk(s.locks, l).value + 1, owner := None);
    LockKnown(s, l, given);
    MoveKnown(WithLock(s, l, given), Me(s).(pc := AfterRelease(Me(s))));
  }

  /** The steps that write one lock and move the running thread. */
  lemma StraightKnown(s: State, s': State, l: LockId, lk: Lock, th: Thread)
    requires Known(s) && l in s.locks && s' == SetMe(WithLock(s, l, lk), th)
    requires th.call == Me(s).call && (AtLock(th.pc) ==> th.pc.l == l)
    ensures Known(s')
  {
    assert AtKnown(Me(s), s.locks.Keys, s.queues.Keys);
    LockKnown(s, l, lk);
    MoveKnown(WithLock(s, l, lk), th);
  }

  lemma AcquireKnown(s: State, l: LockId)
    requires Known(s) && Me(s).pc in {Again(l), Hold(l), Check(l), One(l)} && GoStep(s).Next?
    ensures Known(GoStep(s).s)
  {
    assert AtKnown(Me(s), s.locks.Keys, s.queues.Keys);
    var s' := GoStep(s).s;
    match Me(s).pc
    case Again(_) => StraightKnown(s, s', l, Lk(s'.locks, l), Me(s'));
    case Hold(_) => StraightKnown(s, s', l, Lk(s'.locks, l), Me(s'));
    case Check(_) => MoveKnown(s, Me(s).(pc := One(l)));
    case One(_) => StraightKnown(s, s', l, Lk(s'.locks, l), Me(s'));
  }

  lemma FreeKnown(s: State, l: LockId)
    requires Known(s) && Me(s).pc in {Many(l), Less(l), Last(l), Pc.Drop(l), Zero(l)} && GoStep(s).Next?
    ensures Known(GoStep(s).s)
  {
    assert AtKnown(Me(s), s.locks.Keys, s.queues.Keys);
    match Me(s).pc
    case Many(_) => MoveKnown(s, Me(s).(pc := if Lk(s.locks, l).repeat > 1 then Less(l) else Last(l)));
    case Last(_) => MoveKnown(s, Me(s).(pc := Pc.Drop(l)));
    case _ => FieldKnown(s, l);
  }

  lemma FieldKnown(s: State, l: LockId)
    requires Known(s) && Me(s).pc in {Less(l), Pc.Drop(l), Zero(l)} && GoStep(s).Next?
    ensures Known(GoStep(s).s)
  {
    assert AtKnown(Me(s), s.locks.Keys, s.queues.Keys);
    var s' := GoStep(s).s;
    StraightKnown(s, s', l, Lk(s'.locks, l), Me(s'));
  }

  lemma LockGoKnown(s: State)
    requires Known(s) && AtLock(Me(s).pc) && GoStep(s).Next?
    ensures Known(GoStep(s).s)
  {
    assert AtKnown(Me(s), s.locks.Keys, s.queues.Keys);
    var l := Me(s).pc.l;
    if Me(s).pc == Down(l) {
      DownEntryKnown(s, l);
    } else if Me(s).pc == Retest(l) {
      DownKnown(s, l);
    } else if Me(s).pc == Up(l) {
      UpKnown(s, l);
    } else if Me(s).pc in {Again(l), Hold(l), Check(l), One(l)} {
      AcquireKnown(s, l);
    } else {
      FreeKnown(s, l);
    }
  }

  lemma WakersKnown(s: State, q: nat)
    requires Known(s) && q in s.queues
    ensures WakeProducer(s, q).Next? ==> Known(WakeProducer(s, q).s)
    ensures WakeConsumer(s, q).Next? ==> Known(WakeConsumer(s, q).s)
  {
    var qu := Qu(s.queues, q);
    if qu.producer.Some? && WakeProducer(s, q).Next? {
      UnblockKnown(s, qu.producer.value);
      QueueKnown(ThreadUnblock(s, qu.producer.value).s, q, qu.(producer := None));
    }
    if qu.consumer.Some? && WakeConsumer(s, q).Next? {
      UnblockKnown(s, qu.consumer.value);
      QueueKnown(ThreadUnblock(s, qu.consumer.value).s, q, qu.(consumer := None));
    }
  }

  lemma TestHolderKnown(s: State, l: LockId)
    requires Known(s) && l in s.locks
    ensures Known(TestHolder(s, l).s)
  {
    assert AtKnown(Me(s), s.locks.Keys, s.queues.Keys);
    MoveKnown(s, Me(s).(pc := Again(l)));
    MoveKnown(s, Me(s).(pc := Down(l)));
  }

  lemma ReleaseKnown(s: State, l: LockId)
    requires Known(s) && l in s.locks && Release(s, l).Next?
    ensures Known(Release(s, l).s)
  {
    assert AtKnown(Me(s), s.locks.Keys, s.queues.Keys);
    MoveKnown(s, Me(s).(pc := Many(l)));
  }

  lemma CallTestKnown(s: State)
    requires Known(s) && CallTest(s).Next?
    ensures Known(CallTest(s).s)
  {
    assert AtKnown(Me(s), s.locks.Keys, s.queues.Keys);
    if Me(s).call != NoCall {
      var q := Me(s).call.q;
      TestHolderKnown(s, QueueLock(q));
      ByteKnown(s, q, TakeByte(Qu(s.queues, q)));
      if Me(s).call.PutChar? {
        ByteKnown(s, q, AddByte(Qu(s.queues, q), Me(s).call.byte));
      }
    }
  }

  lemma ByteKnown(s: State, q: nat, qu: Queue)
    requires Known(s) && q in s.queues
    ensures var s' := SetMe(WithQueue(s, q, qu), Me(s).(pc := Client, call := NoCall));
      && (WakeProducer(s', q).Next? ==> Known(WakeProducer(s', q).s))
      && (WakeConsumer(s', q).Next? ==> Known(WakeConsumer(s', q).s))
  {
    QueueKnown(s, q, qu);
    MoveKnown(WithQueue(s, q, qu), Me(s).(pc := Client, call := NoCall));
    WakersKnown(SetMe(WithQueue(s, q, qu), Me(s).(pc := Client, call := NoCall)), q);
  }

  lemma WaitKnown(s: State)
    requires Known(s) && IoWait(s).Next?
    ensures Known(IoWait(s).s)
  {
    assert AtKnown(Me(s), s.locks.Keys, s.queues.Keys);
    MoveKnown(s, Me(s).(pc := IoSlept));
    if Me(s).call != NoCall {
      var q := Me(s).call.q;
      var qu := Qu(s.queues, q);
      var qu' := if Me(s).call.GetChar? then qu.(consumer := Some(s.running)) else qu.(producer := Some(s.running));
      QueueKnown(Goto(s, IoSlept), q, qu');
      BlockKnown(WithQueue(Goto(s, IoSlept), q, qu'));
    }
  }

  lemma GoKnown(s: State)
    requires Known(s) && GoStep(s).Next?
    ensures Known(GoStep(s).s)
  {
    assert AtKnown(Me(s), s.locks.Keys, s.queues.Keys);
    if AtLock(Me(s).pc) {
      LockGoKnown(s);
    } else if Me(s).pc == IoTest {
      CallTestKnown(s);
    } else if Me(s).pc == IoSleep {
      WaitKnown(s);
    } else if Me(s).pc == IoSlept && Me(s).call != NoCall {
      ReleaseKnown(s, QueueLock(Me(s).call.q));
    }
  }

  lemma EnterKnown(s: State, call: Call)
    requires Known(s) && call != NoCall && call.q in s.queues
    ensures var s' := SetMe(s, Me(s).(pc := IoTest, call := call)); CallTest(s').Next? ==> Known(CallTest(s').s)
  {
    var s' := SetMe(s, Me(s).(pc := IoTest, call := call));
    MoveKnown(s, Me(s).(pc := IoTest, call := call));
    if CallTest(s').Next? {
      CallTestKnown(s');
    }
  }

  lemma TickKnown(s: State)
    requires Known(s) && ClockTick(s).Next?
    ensures Known(ClockTick(s).s)
  {
    assert AtKnown(Me(s), s.locks.Keys, s.queues.Keys);
    if Me(s).ticks == 0 {
      MoveKnown(s, Me(s).(savedIf := s.intr));
      ScheduleKnown(SetMe(s, Me(s).(savedIf := s.intr)));
    } else {
      MoveKnown(s, Me(s).(ticks := Me(s).ticks - 1));
    }
  }

  lemma KeyKnown(s: State, q: nat, byte: char)
    requires Known(s) && q in s.queues && KeyPress(s, q, byte).Next?
    ensures Known(KeyPress(s, q, byte).s)
  {
    QueueKnown(s, q, AddByte(Qu(s.queues, q), byte));
    WakersKnown(WithQueue(s, q, AddByte(Qu(s.queues, q), byte)), q);
  }

  /** Every step leaves what is known known. */
  lemma StepKnown(s: State, a: Action)
    requires Known(s) && Asked(s, a) && Step(s, a).Next?
    ensures Known(Step(s, a).s)
  {
    match a
    case Go => GoKnown(s);
    case CallAcquire(l) => TestHolderKnown(s, Plain(l));
    case CallRelease(l) => ReleaseKnown(s, Plain(l));
    case CallGet(q) => EnterKnown(s, GetChar(q));
    case CallPut(q, byte) => EnterKnown(s, PutChar(q, byte));
    case CallSetIntr(_) =>
    case CallStart(t, priority) =>
    case Tick => TickKnown(s);
    case Key(q, byte) => KeyKnown(s, q, byte);
  }

  /** Every action of the run asks for what has been initialized by then. */
  predicate Requested(s: State, actions: seq<Action>)
    decreases |actions|
  {
    actions == [] ||
    (Asked(s, actions[0]) && (Step(s, actions[0]).Next? ==> Requested(Step(s, actions[0]).s, actions[1..])))
  }

  /** lock_init and ioq_init before the first use change nothing that the invariant is about. */
  lemma InitKeeps(s: State, s': State)
    requires s' == s.(locks := s'.locks, queues := s'.queues)
    requires forall l :: Lk(s'.locks, l) == Lk(s.locks, l)
    requires forall q: nat :: Qu(s'.queues, q) == Qu(s.queues, q)
    requires s.locks.Keys <= s'.locks.Keys && s.queues.Keys <= s'.queues.Keys
    requires forall q :: q in s'.queues ==> QueueLock(q) in s'.locks || q in s.queues
    ensures Inv(s, true) && Known(s) ==> Inv(s', true) && Known(s')
  {
    if Inv(s, true) && Known(s) {
      InitInv(s, s');
    }
  }

  lemma InitInv(s: State, s': State)
    requires Inv(s, true) && s' == s.(locks := s'.locks, queues := s'.queues)
    requires forall l :: Lk(s'.locks, l) == Lk(s.locks, l)
    requires forall q: nat :: Qu(s'.queues, q) == Qu(s.queues, q)
    ensures Inv(s', true)
  {
    forall l ensures LockOk(s'.threads, Lk(s'.locks, l), l) && NoLostWakeup(s'.threads, Lk(s'.locks, l), l) {
      assert LockOk(s.threads, Lk(s.locks, l), l) && NoLostWakeup(s.threads, Lk(s.locks, l), l);
    }
    forall q: nat ensures RingOk(Qu(s'.queues, q)) {
      assert RingOk(Qu(s.queues, q));
    }
  }

  lemma BootKnown()
    ensures Known(BOOT) && Inv(BOOT, true)
  {
    BootOk();
  }
}
