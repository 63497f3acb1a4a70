/** What holds in every reachable state, for any number of threads, locks and queues and any
    interleaving of calls and interrupts. */
module KernelSafety {
  import opened Common
  import opened KernelState
  import opened Scheduling
  import opened Locking
  import opened IoQueues
  import opened KernelSystem
  import opened KernelInvariant
  import opened KernelSteps
  import opened KernelWakes
  import opened KernelIo

  lemma BootOk()
    ensures Inv(BOOT, true)
  {
    assert Placement(BOOT, true);
    BootRest();
  }

  lemma BootRest()
    ensures Locals(BOOT) && QueueDepths(BOOT) && Locks(BOOT) && Wakeups(BOOT) && Rings(BOOT)
    ensures MainOk(Th(BOOT.threads, MAIN), true) && Alone(BOOT)
  {
  }

  lemma LockGoKeeps(s: State)
    requires Inv(s, true) && AtLock(Me(s).pc)
    ensures GoStep(s).Next? && Inv(GoStep(s).s, true)
  {
    var l := Me(s).pc.l;
    match Me(s).pc
    case Down(_) => DownKeeps(s, l);
    case Retest(_) => DownKeeps(s, l);
    case Up(_) => SemaUpKeeps(s, l);
    case _ => StraightKeeps(s, l);
  }

  /** The steps of the lock code that neither block nor wake anybody. */
  lemma StraightKeeps(s: State, l: LockId)
    requires Inv(s, true) && AtLock(Me(s).pc) && Me(s).pc.l == l
    requires !Me(s).pc.Down? && !Me(s).pc.Retest? && !Me(s).pc.Up?
    ensures GoStep(s).Next? && Inv(GoStep(s).s, true)
  {
    InvMeOk(s, l);
    if Me(s).pc.Again? || Me(s).pc.Hold? || Me(s).pc.Check? || Me(s).pc.One? {
      AcquireQuiet(s, l);
    } else if Me(s).pc.Drop? || Me(s).pc.Zero? {
      DropQuiet(s, l);
    } else {
      CountQuiet(s, l);
    }
    QuietKeeps(s, GoStep(s).s, l);
  }

  lemma AcquireQuiet(s: State, l: LockId)
    requires MeOk(s, l) && MainReady(s) && Me(s).pc in {Again(l), Hold(l), Check(l), One(l)}
    ensures GoStep(s).Next? && Quiet(s, GoStep(s).s, l) && MeOk(GoStep(s).s, l)
  {
    match Me(s).pc
    case Again(_) => CountAgainQuiet(s, l);
    case Hold(_) => TakeHoldQuiet(s, l);
    case Check(_) => CheckCountQuiet(s, l);
    case One(_) => SetCountQuiet(s, l);
  }

  lemma CountQuiet(s: State, l: LockId)
    requires MeOk(s, l) && MainReady(s) && Me(s).pc in {Many(l), Less(l), Last(l)}
    ensures GoStep(s).Next? && Quiet(s, GoStep(s).s, l) && MeOk(GoStep(s).s, l)
  {
    match Me(s).pc
    case Many(_) => TestCountQuiet(s, l);
    case Less(_) => CountLessQuiet(s, l);
    case Last(_) => CheckLastQuiet(s, l);
  }

  lemma DropQuiet(s: State, l: LockId)
    requires MeOk(s, l) && MainReady(s) && Me(s).pc in {Pc.Drop(l), Zero(l)}
    ensures GoStep(s).Next? && Quiet(s, GoStep(s).s, l) && MeOk(GoStep(s).s, l)
  {
    match Me(s).pc
    case Drop(_) => DropHoldQuiet(s, l);
    case Zero(_) => ZeroCountQuiet(s, l);
  }

  /** main, locking while it boots the kernel, never has to wait. */
  lemma MainFindsItFree(s: State, l: LockId)
    requires Inv(s, true) && s.running == MAIN && (Me(s).pc == Down(l) || Me(s).pc == Retest(l))
    ensures Lk(s.locks, l).value == 1
  {
    var lk := Lk(s.locks, l);
    assert LockOk(s.threads, lk, l);
    if lk.owner.Some? {
      assert false;
    }
  }

  lemma DownKeeps(s: State, l: LockId)
    requires Inv(s, true) && (Me(s).pc == Down(l) || Me(s).pc == Retest(l))
    ensures GoStep(s).Next? && Inv(GoStep(s).s, true)
  {
    InvMeOk(s, l);
    if s.running == MAIN {
      MainFindsItFree(s, l);
    }
    if Lk(s.locks, l).value == 0 {
      DownBlockKeeps(s, l);
    } else {
      DownTakeQuiet(s, l);
      QuietKeeps(s, GoStep(s).s, l);
    }
  }

  lemma GoKeeps(s: State)
    requires Inv(s, true) && Me(s).pc != Client
    ensures GoStep(s).Next? && Inv(GoStep(s).s, true)
  {
    assert LocalOk(Me(s), Flag(s, s.running));
    if AtLock(Me(s).pc) {
      LockGoKeeps(s);
    } else if Me(s).pc == IoTest {
      match Me(s).call
      case GetChar(q) => GetTestKeeps(s, q);
      case PutChar(q, byte) => PutTestKeeps(s, q, byte);
    } else if Me(s).pc == IoSleep {
      IoWaitKeeps(s);
    } else {
      IoResumeKeeps(s);
    }
  }

  lemma CallLockKeeps(s: State, l: LockId)
    requires Inv(s, true) && MayLock(s) && Me(s).pc == Client && l.Plain?
    ensures Depth(Me(s), l) + 1 < U32 ==> TestHolder(s, l).Next? && Inv(TestHolder(s, l).s, true)
    ensures Depth(Me(s), l) > 0 ==> Release(s, l).Next? && Inv(Release(s, l).s, true)
    ensures Depth(Me(s), l) == 0 ==> Release(s, l) == Panic(SyncC, 66)
  {
    InvMeOk(s, l);
    if Depth(Me(s), l) + 1 < U32 {
      TestHolderQuiet(s, l);
      QuietKeeps(s, TestHolder(s, l).s, l);
    }
    if Depth(Me(s), l) > 0 {
      ReleaseQuiet(s, l);
      QuietKeeps(s, Release(s, l).s, l);
    }
  }

  lemma CallGetKeeps(s: State, q: nat)
    requires Inv(s, true) && s.running != MAIN && Me(s).pc == Client && !s.intr
    ensures Step(s, CallGet(q)).Next? && Inv(Step(s, CallGet(q)).s, true)
  {
    EnterCallKeeps(s, GetChar(q));
    GetTestKeeps(Entered(s, GetChar(q)), q);
    CallGetIs(s, q);
  }

  lemma CallGetIs(s: State, q: nat)
    ensures Step(s, CallGet(q)) == GetTest(Entered(s, GetChar(q)), q)
  {
  }

  lemma CallPutKeeps(s: State, q: nat, byte: char)
    requires Inv(s, true) && s.running != MAIN && Me(s).pc == Client && !s.intr
    ensures Step(s, CallPut(q, byte)).Next? && Inv(Step(s, CallPut(q, byte)).s, true)
  {
    EnterCallKeeps(s, PutChar(q, byte));
    PutTestKeeps(Entered(s, PutChar(q, byte)), q, byte);
    CallPutIs(s, q, byte);
  }

  lemma CallPutIs(s: State, q: nat, byte: char)
    ensures Step(s, CallPut(q, byte)) == PutTest(Entered(s, PutChar(q, byte)), q, byte)
  {
  }

  /** A legal step keeps the invariant; a step the callers' rules forbid fails an ASSERT,
      except that nesting a lock too deep goes unnoticed at first. */
  lemma StepKeeps(s: State, a: Action)
    requires Inv(s, true) && Enabled(s, a)
    ensures Legal(s, a) ==> Step(s, a).Next? && Inv(Step(s, a).s, true)
    ensures !a.CallAcquire? ==> (Step(s, a).Panic? <==> !Legal(s, a))
  {
    match a
    case Go => GoKeeps(s);
    case CallAcquire(l) => CallLockKeeps(s, Plain(l));
    case CallRelease(l) => CallLockKeeps(s, Plain(l));
    case CallGet(q) => if !s.intr { CallGetKeeps(s, q); }
    case CallPut(q, byte) => if !s.intr { CallPutKeeps(s, q, byte); }
    case CallSetIntr(on) => SetIntrKeeps(s, on);
    case CallStart(t, priority) => SpawnKeeps(s, t, priority);
    case Tick => TickKeeps(s);
    case Key(q, byte) => KeyPressKeeps(s, q, byte);
  }

  lemma {:induction false} RunKeeps(s: State, actions: seq<Action>)
    requires Inv(s, true) && Obeys(s, actions)
    ensures Run(s, actions).Next? && Inv(Run(s, actions).s, true)
    decreases |actions|
  {
    if actions != [] {
      StepKeeps(s, actions[0]);
      RunKeeps(Step(s, actions[0]).s, actions[1..]);
    }
  }

  ghost predicate Reachable(s: State) {
    exists actions :: Obeys(BOOT, actions) && Run(BOOT, actions) == Next(s)
  }

  lemma ReachableInv(s: State)
    requires Reachable(s)
    ensures Inv(s, true)
  {
    var actions :| Obeys(BOOT, actions) && Run(BOOT, actions) == Next(s);
    BootOk();
    RunKeeps(BOOT, actions);
  }

  /** No run whose callers keep the rules fails an ASSERT or reaches a PANIC. */
  lemma NoPanic(actions: seq<Action>)
    requires Obeys(BOOT, actions)
    ensures Run(BOOT, actions).Next?
  {
    BootOk();
    RunKeeps(BOOT, actions);
  }

  /** At most one thread is past value-- and before value++ of a lock, so in particular at
      most one is between its first acquire and its last release; the value says whether
      there is one; holder names it except in the hand-over windows; and the count is the
      nesting depth. */
  lemma MutualExclusion(s: State, l: LockId)
    requires Reachable(s)
    ensures forall t: Tid, u: Tid :: Owns(Th(s.threads, t), l) && Owns(Th(s.threads, u), l) ==> t == u
    ensures Lk(s.locks, l).value <= 1
    ensures Lk(s.locks, l).value == 0 <==> exists t: Tid :: Owns(Th(s.threads, t), l)
    ensures forall t: Tid :: Lk(s.locks, l).holder == Some(t) <==>
      Owns(Th(s.threads, t), l) && Th(s.threads, t).pc !in {Hold(l), Zero(l), Up(l)}
    ensures forall t: Tid :: Depth(Th(s.threads, t), l) > 0 ==>
      Lk(s.locks, l).holder == Some(t) && Lk(s.locks, l).repeat == Depth(Th(s.threads, t), l)
  {
    ReachableInv(s);
    var lk := Lk(s.locks, l);
    assert LockOk(s.threads, lk, l);
    if lk.owner.Some? {
      assert Owns(Th(s.threads, lk.owner.value), l);
    }
  }

  /** A free lock never sleeps on its waiters: some woken thread is on its way to the test,
      RUNNING or in the ready list. */
  lemma NoWakeupIsLost(s: State, l: LockId)
    requires Reachable(s) && Lk(s.locks, l).value == 1 && Lk(s.locks, l).waiters != []
    ensures exists t: Tid ::
      Th(s.threads, t).pc == Retest(l) && t !in Lk(s.locks, l).waiters && (t == s.running || t in s.ready)
  {
    ReachableInv(s);
    assert NoLostWakeup(s.threads, Lk(s.locks, l), l);
    var t: Tid :| Woken(Th(s.threads, t), l);
    assert WaitsOn(Th(s.threads, t), l) <==> t in Lk(s.locks, l).waiters;
    assert t in s.ready <==> Th(s.threads, t).status == Ready;
  }

  /** The places a general_tag can be in. */
  datatype Place = OnCpu | InReady | InWaiters(l: LockId) | InConsumer(q: nat) | InProducer(q: nat)

  predicate At(s: State, t: Tid, p: Place) {
    match p
    case OnCpu => t == s.running
    case InReady => t in s.ready
    case InWaiters(l) => t in Lk(s.locks, l).waiters
    case InConsumer(q) => Qu(s.queues, q).consumer == Some(t)
    case InProducer(q) => Qu(s.queues, q).producer == Some(t)
  }

  /** Every thread that exists is in exactly one place, once, and its status says which kind;
      a thread that does not exist is nowhere. The intrusive list node each thread has is
      therefore never asked to be in two lists. */
  lemma OnePlace(s: State, t: Tid)
    requires Reachable(s)
    ensures forall p, p' :: At(s, t, p) && At(s, t, p') ==> p == p'
    ensures Th(s.threads, t).status != Unborn <==> exists p :: At(s, t, p)
    ensures Th(s.threads, t).status == Running <==> At(s, t, OnCpu)
    ensures Th(s.threads, t).status == Ready <==> At(s, t, InReady)
    ensures NoDup(s.ready) && forall l :: NoDup(Lk(s.locks, l).waiters)
  {
    ReachableInv(s);
    var th := Th(s.threads, t);
    assert LocalOk(th, Flag(s, t));
    forall p | At(s, t, p)
      ensures p == match th.status
                   case Running => OnCpu
                   case Ready => InReady
                   case _ => if th.pc.Retest? then InWaiters(th.pc.l)
                             else if th.call.GetChar? then InConsumer(th.call.q)
                             else if th.call.PutChar? then InProducer(th.call.q) else OnCpu
    {
      match p
      case InWaiters(l) => assert WaitsOn(th, l);
      case InConsumer(q) => assert ReaderAsleep(th, q);
      case InProducer(q) => assert WriterAsleep(th, q);
      case _ =>
    }
    if th.status == Running {
      assert At(s, t, OnCpu);
    } else if th.status == Ready {
      assert At(s, t, InReady);
    } else if th.status == Blocked {
      if th.pc.Retest? {
        assert WaitsOn(th, th.pc.l);
        assert At(s, t, InWaiters(th.pc.l));
      } else if th.call.GetChar? {
        assert ReaderAsleep(th, th.call.q);
        assert At(s, t, InConsumer(th.call.q));
      } else {
        assert WriterAsleep(th, th.call.q);
        assert At(s, t, InProducer(th.call.q));
      }
    }
  }

  /** Bytes come out in the order they went in, at most 63 are in between, and the two slots
      are never both taken. */
  lemma BoundedQueue(s: State, q: nat)
    requires Reachable(s)
    ensures Qu(s.queues, q).written == Qu(s.queues, q).read + Pending(Qu(s.queues, q))
    ensures |Pending(Qu(s.queues, q))| <= 63
    ensures Qu(s.queues, q).consumer == None || Qu(s.queues, q).producer == None
  {
    ReachableInv(s);
    var qu := Qu(s.queues, q);
    assert RingOk(qu);
    if qu.consumer.Some? && qu.producer.Some? {
      var c, p := Th(s.threads, qu.consumer.value), Th(s.threads, qu.producer.value);
      assert ReaderAsleep(c, q) && WriterAsleep(p, q);
      assert LocalOk(c, Flag(s, qu.consumer.value)) && LocalOk(p, Flag(s, qu.producer.value));
      assert Owns(c, QueueLock(q)) && Owns(p, QueueLock(q));
      MutualExclusion(s, QueueLock(q));
      assert false;
    }
  }

  /** A thread inside the queue code, running or not, has interrupts off. */
  lemma QueueCodeRunsUninterrupted(s: State)
    requires Reachable(s)
    ensures Me(s).call != NoCall ==> !s.intr
    ensures forall t: Tid :: Th(s.threads, t).call != NoCall && t != s.running ==> !Th(s.threads, t).savedIf
  {
    ReachableInv(s);
    assert LocalOk(Me(s), Flag(s, s.running));
    forall t: Tid | t != s.running && Th(s.threads, t).call != NoCall ensures !Th(s.threads, t).savedIf {
      assert LocalOk(Th(s.threads, t), Flag(s, t));
    }
  }
}
