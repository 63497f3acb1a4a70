/** The steps of the bounded queue and the interrupts keep the invariant and fail no ASSERT. */
module KernelIo {
  import opened Common
  import opened KernelState
  import opened Scheduling
  import opened Locking
  import opened IoQueues
  import opened KernelSystem
  import opened KernelInvariant
  import opened KernelSteps
  import opened KernelWakes

  // ----- the ring

  lemma TakeByteRing(qu: Queue)
    requires !Empty(qu)
    ensures Pending(qu) == [qu.buf[qu.tail]] + Pending(TakeByte(qu))
  {
    var t, h := qu.tail as nat, qu.head as nat;
    if t < h {
      Slice(qu.buf, t, h);
    } else {
      Wrapped(qu.buf, t, h);
    }
  }

  lemma Slice(b: seq<char>, i: nat, j: nat)
    requires i < j <= |b|
    ensures b[i..j] == [b[i]] + b[i + 1..j]
  {
  }

  /** The first byte of a ring that is wrapped around, and what Pending is without it. */
  lemma Wrapped(b: Buffer, t: nat, h: nat)
    requires h <= t < BUFSIZE
    ensures b[t..] + b[..h] == [b[t]] + if t == BUFSIZE - 1 then b[0..h] else b[t + 1..] + b[..h]
  {
    if t == BUFSIZE - 1 {
      assert b[t..] == [b[t]] && b[0..h] == b[..h];
    } else {
      Slice(b, t, BUFSIZE);
      Regroup([b[t]], b[t + 1..], b[..h]);
      assert b[t..BUFSIZE] == b[t..] && b[t + 1..BUFSIZE] == b[t + 1..];
    }
  }

  lemma AddByteRing(qu: Queue, byte: char)
    requires !Full(qu)
    ensures Pending(AddByte(qu, byte)) == Pending(qu) + [byte]
  {
    var added := AddByte(qu, byte);
    if qu.tail <= qu.head {
      if qu.head + 1 < BUFSIZE {
        assert added.buf[qu.tail..qu.head + 1] == qu.buf[qu.tail..qu.head] + [byte];
      } else {
        assert added.buf[qu.tail..] == qu.buf[qu.tail..qu.head] + [byte];
        assert added.buf[..0] == [];
      }
    } else {
      assert added.buf[..qu.head + 1] == qu.buf[..qu.head] + [byte];
      assert added.buf[qu.tail..] == qu.buf[qu.tail..];
    }
  }

  lemma Regroup(a: seq<char>, b: seq<char>, c: seq<char>)
    ensures a + (b + c) == a + b + c
  {
  }

  lemma TakeByteOk(qu: Queue)
    requires RingOk(qu) && !Empty(qu)
    ensures RingOk(TakeByte(qu))
  {
    TakeByteRing(qu);
    Regroup(qu.read, [qu.buf[qu.tail]], Pending(TakeByte(qu)));
  }

  lemma AddByteOk(qu: Queue, byte: char)
    requires RingOk(qu) && !Full(qu)
    ensures RingOk(AddByte(qu, byte))
  {
    AddByteRing(qu, byte);
    Regroup(qu.read, Pending(qu), [byte]);
  }

  // ----- waking a sleeper

  lemma WakeConsumerPlacement(s: State, q: nat)
    requires Placement(s, true)
    ensures WakeConsumer(s, q).Next? && Placement(WakeConsumer(s, q).s, true)
  {
    var c := Qu(s.queues, q).consumer;
    if c.Some? {
      assert ReaderAsleep(Th(s.threads, c.value), q);
    }
  }

  lemma WakeProducerPlacement(s: State, q: nat)
    requires Placement(s, true)
    ensures WakeProducer(s, q).Next? && Placement(WakeProducer(s, q).s, true)
  {
    var p := Qu(s.queues, q).producer;
    if p.Some? {
      assert WriterAsleep(Th(s.threads, p.value), q);
    }
  }

  /** A sleeper of a queue became READY; nothing else matters to the locks. */
  ghost predicate Roused(s: State, s': State, t: Tid) {
    && s' == s.(threads := s'.threads, queues := s'.queues, ready := s'.ready)
    && Th(s.threads, t).status == Blocked && Th(s.threads, t).pc == IoSlept
    && (forall u: Tid :: Th(s'.threads, u) == if u == t then Th(s.threads, t).(status := Ready) else Th(s.threads, u))
    && (forall q: nat :: RingOk(Qu(s'.queues, q)))
  }

  lemma RousedKeeps(s: State, s': State, t: Tid)
    requires Inv(s, true) && Roused(s, s', t) && Placement(s', true)
    ensures Inv(s', true)
  {
    QueueDepthsKept(s, s');
    LocksKept(s, s');
    WakeupsKept(s, s');
  }

  lemma WakeConsumerKeeps(s: State, q: nat)
    requires Inv(s, true)
    ensures WakeConsumer(s, q).Next? && Inv(WakeConsumer(s, q).s, true)
  {
    WakeConsumerPlacement(s, q);
    var c := Qu(s.queues, q).consumer;
    if c.Some? {
      assert ReaderAsleep(Th(s.threads, c.value), q);
      RousedKeeps(s, WakeConsumer(s, q).s, c.value);
    }
  }

  lemma WakeProducerKeeps(s: State, q: nat)
    requires Inv(s, true)
    ensures WakeProducer(s, q).Next? && Inv(WakeProducer(s, q).s, true)
  {
    WakeProducerPlacement(s, q);
    var p := Qu(s.queues, q).producer;
    if p.Some? {
      assert WriterAsleep(Th(s.threads, p.value), q);
      RousedKeeps(s, WakeProducer(s, q).s, p.value);
    }
  }

  // ----- the loop tests

  /** The running thread has called the queue. */
  function Entered(s: State, call: Call): (s': State)
    ensures Me(s') == Me(s).(pc := IoTest, call := call)
  {
    SetMe(s, Me(s).(pc := IoTest, call := call))
  }

  lemma EnterCallKeeps(s: State, call: Call)
    requires Inv(s, true) && Me(s).pc == Client && s.running != MAIN && !s.intr && call != NoCall
    ensures Inv(Entered(s, call), true)
  {
    var s' := Entered(s, call);
    forall q: nat ensures QueueDepthOk(Me(s'), q) {
      assert QueueDepthOk(Me(s), q);
    }
    assert LocalOk(Me(s), Flag(s, s.running));
    MovedKeeps(s, s');
  }

  lemma LeaveCallKeeps(s: State, q: nat, qu: Queue)
    requires Inv(s, true) && Me(s).pc == IoTest
    requires RingOk(qu) && SameSlots(Qu(s.queues, q), qu)
    ensures Inv(SetMe(WithQueue(s, q, qu), Me(s).(pc := Client, call := NoCall)), true)
  {
    var s' := SetMe(WithQueue(s, q, qu), Me(s).(pc := Client, call := NoCall));
    forall q: nat ensures QueueDepthOk(Me(s'), q) {
      assert QueueDepthOk(Me(s), q);
    }
    MovedKeeps(s, s');
  }

  lemma LoopTestKeeps(s: State, q: nat)
    requires Inv(s, true) && Me(s).pc == IoTest && s.running != MAIN && Me(s).call != NoCall && Me(s).call.q == q
    ensures TestHolder(s, QueueLock(q)).Next? && Inv(TestHolder(s, QueueLock(q)).s, true)
  {
    var l := QueueLock(q);
    InvMeOk(s, l);
    assert QueueDepthOk(Me(s), q);
    TestHolderQuiet(s, l);
    QuietKeeps(s, TestHolder(s, l).s, l);
  }

  lemma GetTestKeeps(s: State, q: nat)
    requires Inv(s, true) && Me(s).pc == IoTest && s.running != MAIN && Me(s).call == GetChar(q)
    ensures GetTest(s, q).Next? && Inv(GetTest(s, q).s, true)
  {
    assert LocalOk(Me(s), Flag(s, s.running));
    var qu := Qu(s.queues, q);
    if Empty(qu) {
      LoopTestKeeps(s, q);
    } else {
      TakeByteOk(qu);
      LeaveCallKeeps(s, q, TakeByte(qu));
      WakeProducerKeeps(SetMe(WithQueue(s, q, TakeByte(qu)), Me(s).(pc := Client, call := NoCall)), q);
    }
  }

  lemma PutTestKeeps(s: State, q: nat, byte: char)
    requires Inv(s, true) && Me(s).pc == IoTest && s.running != MAIN && Me(s).call == PutChar(q, byte)
    ensures PutTest(s, q, byte).Next? && Inv(PutTest(s, q, byte).s, true)
  {
    assert LocalOk(Me(s), Flag(s, s.running));
    var qu := Qu(s.queues, q);
    if Full(qu) {
      LoopTestKeeps(s, q);
    } else {
      AddByteOk(qu, byte);
      LeaveCallKeeps(s, q, AddByte(qu, byte));
      WakeConsumerKeeps(SetMe(WithQueue(s, q, AddByte(qu, byte)), Me(s).(pc := Client, call := NoCall)), q);
    }
  }

  lemma KeyPressKeeps(s: State, q: nat, byte: char)
    requires Inv(s, true)
    ensures KeyPress(s, q, byte).Next? && Inv(KeyPress(s, q, byte).s, true)
  {
    var qu := Qu(s.queues, q);
    if !Full(qu) {
      var s1 := WithQueue(s, q, AddByte(qu, byte));
      AddByteOk(qu, byte);
      QueueKeeps(s, q, AddByte(qu, byte));
      WakeConsumerKeeps(s1, q);
    }
  }

  lemma QueueKeeps(s: State, q: nat, qu: Queue)
    requires Inv(s, true) && RingOk(qu) && SameSlots(Qu(s.queues, q), qu)
    ensures Inv(WithQueue(s, q, qu), true)
  {
    var s' := WithQueue(s, q, qu);
    LocksKept(s, s');
    WakeupsKept(s, s');
  }

  // ----- going to sleep on a queue

  /** The running thread has put itself into its slot and is no longer RUNNING. */
  function Asleep(s: State): State
    requires Me(s).call != NoCall
  {
    var q := Me(s).call.q;
    var qu := Qu(s.queues, q);
    var slot := if Me(s).call.GetChar? then qu.(consumer := Some(s.running)) else qu.(producer := Some(s.running));
    SetMe(WithQueue(s, q, slot), Me(s).(pc := IoSlept, status := Blocked, savedIf := s.intr))
  }

  lemma IoWaitIs(s: State)
    requires Me(s).call != NoCall
    requires Me(s).call.GetChar? ==> Qu(s.queues, Me(s).call.q).consumer == None
    requires Me(s).call.PutChar? ==> Qu(s.queues, Me(s).call.q).producer == None
    ensures IoWait(s) == Dispatch(Asleep(s))
  {
    SetThTwice(s.threads, s.running, Me(s).(pc := IoSlept), Me(Asleep(s)));
  }

  /** The lock makes the sleeper of a queue unique: nobody sleeps while a thread is about to. */
  lemma SlotsFree(s: State)
    requires Inv(s, true) && Me(s).pc == IoSleep && Me(s).call != NoCall
    ensures Qu(s.queues, Me(s).call.q).consumer == None && Qu(s.queues, Me(s).call.q).producer == None
  {
    var q := Me(s).call.q;
    assert LocalOk(Me(s), Flag(s, s.running));
    assert LockOk(s.threads, Lk(s.locks, QueueLock(q)), QueueLock(q));
    assert Owns(Me(s), QueueLock(q));
    forall t: Tid ensures !ReaderAsleep(Th(s.threads, t), q) && !WriterAsleep(Th(s.threads, t), q) {
      assert LocalOk(Th(s.threads, t), Flag(s, t));
      assert Owns(Th(s.threads, t), QueueLock(q)) ==> t == s.running;
    }
  }

  lemma AsleepPlacement(s: State)
    requires Placement(s, true) && Me(s).status == Running && Me(s).call != NoCall
    requires Qu(s.queues, Me(s).call.q).consumer == None && Qu(s.queues, Me(s).call.q).producer == None
    ensures Placement(Asleep(s), false)
  {
    assert forall l :: !WaitsOn(Me(s), l);
  }

  lemma AsleepKeeps(s: State)
    requires Inv(s, true) && Me(s).pc == IoSleep && s.running != MAIN
    requires Me(s).call != NoCall && Placement(Asleep(s), false)
    ensures Inv(Asleep(s), false)
  {
    assert LocalOk(Me(s), Flag(s, s.running));
    QueueDepthsKept(s, Asleep(s));
    LocksKept(s, Asleep(s));
    WakeupsKept(s, Asleep(s));
  }

  lemma IoWaitKeeps(s: State)
    requires Inv(s, true) && Me(s).pc == IoSleep && s.running != MAIN
    ensures IoWait(s).Next? && Inv(IoWait(s).s, true)
  {
    assert LocalOk(Me(s), Flag(s, s.running));
    SlotsFree(s);
    IoWaitIs(s);
    AsleepPlacement(s);
    AsleepKeeps(s);
    DispatchKeeps(Asleep(s));
  }

  lemma IoResumeKeeps(s: State)
    requires Inv(s, true) && Me(s).pc == IoSlept && s.running != MAIN
    ensures IoResume(s).Next? && Inv(IoResume(s).s, true)
  {
    assert LocalOk(Me(s), Flag(s, s.running));
    var l := QueueLock(Me(s).call.q);
    InvMeOk(s, l);
    ReleaseQuiet(s, l);
    QuietKeeps(s, Release(s, l).s, l);
  }

  // ----- clock, start, interrupt flag

  /** The running thread has been put at the end of the ready list. */
  function Preempted(s: State): State {
    var th := Me(s).(status := Ready, ticks := Me(s).priority, savedIf := s.intr);
    SetMe(s, th).(ready := s.ready + [s.running])
  }

  lemma PreemptedKeeps(s: State)
    requires Inv(s, true)
    ensures Inv(Preempted(s), false)
  {
    PreemptedPlacement(s);
    QueueDepthsKept(s, Preempted(s));
    LocksKept(s, Preempted(s));
    WakeupsKept(s, Preempted(s));
  }

  lemma PreemptedPlacement(s: State)
    requires Placement(s, true)
    ensures Placement(Preempted(s), false) && s.running !in s.ready
  {
    assert Me(s).status == Running;
  }

  lemma PreemptIs(s: State)
    requires Me(s).status == Running && s.running !in s.ready && Me(s).ticks == 0
    ensures ClockTick(s) == Dispatch(Preempted(s))
  {
    SetThTwice(s.threads, s.running, Me(s).(savedIf := s.intr), Me(Preempted(s)));
  }

  lemma TickKeeps(s: State)
    requires Inv(s, true) && s.intr
    ensures ClockTick(s).Next? && Inv(ClockTick(s).s, true)
  {
    assert Me(s).status == Running;
    if Me(s).ticks == 0 {
      PreemptedPlacement(s);
      PreemptIs(s);
      PreemptedKeeps(s);
      DispatchKeeps(Preempted(s));
    } else {
      var s' := ClockTick(s).s;
      assert LocalOk(Me(s), Flag(s, s.running));
      forall q: nat ensures QueueDepthOk(Me(s'), q) {
        assert QueueDepthOk(Me(s), q);
      }
      MovedKeeps(s, s');
    }
  }

  lemma SetIntrKeeps(s: State, on: bool)
    requires Inv(s, true) && Me(s).pc == Client
    ensures Inv(s.(intr := on, booting := s.booting && !on), true)
  {
    assert LocalOk(Me(s), Flag(s, s.running));
    assert forall q: nat :: QueueDepthOk(Me(s), q);
    MovedKeeps(s, s.(intr := on, booting := s.booting && !on));
  }

  lemma SpawnKeeps(s: State, t: Tid, priority: nat)
    requires Inv(s, true) && t !in s.threads
    ensures Spawn(s, t, priority).Next? && Inv(Spawn(s, t, priority).s, true)
  {
    assert Th(s.threads, t) == NO_THREAD;
    var s' := Spawn(s, t, priority).s;
    SpawnPlacement(s, t, priority);
    QueueDepthsKept(s, s');
    LocksKept(s, s');
    WakeupsKept(s, s');
  }

  lemma SpawnPlacement(s: State, t: Tid, priority: nat)
    requires Placement(s, true) && Th(s.threads, t) == NO_THREAD
    ensures Spawn(s, t, priority).Next? && Placement(Spawn(s, t, priority).s, true)
  {
  }
}
