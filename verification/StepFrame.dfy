/** What a step leaves alone, and what it does to the threads it wakes and starts. */
module StepFrame {
  import opened Common
  import opened KernelState
  import opened Scheduling
  import opened Locking
  import opened IoQueues
  import opened KernelSystem
  import opened KernelInvariant
  import opened KernelSteps
  import opened KernelWakes
  import opened KernelIo
  import opened KernelSafety

  /** The thread may have been woken or dispatched; all else it has is as it was. */
  predicate Spared(th: Thread, th': Thread) {
    th' == th.(status := th'.status)
  }

  /** Other threads are spared, and whoever is dispatched gets its stored interrupt flag. */
  ghost predicate Frame(s: State, s': State) {
    && (forall t: Tid :: t != s.running ==> Spared(Th(s.threads, t), Th(s'.threads, t)))
    && (s'.running != s.running ==> s'.intr == Th(s'.threads, s'.running).savedIf)
  }

  /** ... and the same thread goes on running, with the flag as it was, and does not wait. */
  ghost predicate Stays(s: State, s': State) {
    && Frame(s, s') && s'.running == s.running && s'.intr == s.intr
    && (!Me(s).pc.Retest? ==> !Me(s').pc.Retest?)
  }

  lemma DispatchFrame(s: State, s1: State)
    requires Placement(s1, false) && Dispatch(s1).Next?
    requires s1.running == s.running && forall t: Tid :: t != s.running ==> Th(s1.threads, t) == Th(s.threads, t)
    ensures Frame(s, Dispatch(s1).s) && Spared(Th(s1.threads, s.running), Th(Dispatch(s1).s.threads, s.running))
    ensures Dispatch(s1).s.intr == Th(s1.threads, Dispatch(s1).s.running).savedIf
    ensures Th(s1.threads, s.running).status == Blocked ==> Dispatch(s1).s.running != s.running
  {
    assert s1.ready[0] in s1.ready;
  }

  // ----- the lock code

  lemma BlockFrame(s: State, l: LockId)
    requires Inv(s, true) && (Me(s).pc == Down(l) || Me(s).pc == Retest(l)) && Lk(s.locks, l).value == 0
    ensures GoStep(s).Next? && Frame(s, GoStep(s).s) && GoStep(s).s.running != s.running
    ensures Spared(Me(Queued(s, l)), Th(GoStep(s).s.threads, s.running))
    ensures Lk(GoStep(s).s.locks, l).waiters == Lk(s.locks, l).waiters + [s.running]
  {
    GoKeeps(s);
    InvMeOk(s, l);
    QueuedPlacement(s, l);
    DownBlockIs(s, l);
    DispatchFrame(s, Queued(s, l));
  }

  lemma TakeFrame(s: State, l: LockId)
    requires (Me(s).pc == Down(l) || Me(s).pc == Retest(l)) && Lk(s.locks, l).value != 0 && GoStep(s).Next?
    ensures Frame(s, GoStep(s).s) && GoStep(s).s.running == s.running
    ensures Me(GoStep(s).s).pc == Hold(l) && Me(GoStep(s).s).depth == Me(s).depth
    ensures GoStep(s).s.intr == if Me(s).pc == Down(l) then s.intr else Me(s).oldIf
  {
  }

  /** sema_up wakes the first waiter, and it will be the next to run. */
  lemma UpFrame(s: State, l: LockId)
    requires Inv(s, true) && Me(s).pc == Up(l)
    ensures GoStep(s).Next? && Stays(s, GoStep(s).s) && Me(GoStep(s).s) == Me(s).(pc := AfterRelease(Me(s)))
    ensures WakesFirst(s, GoStep(s).s, l)
  {
    InvMeOk(s, l);
    assert Owns(Me(s), l);
    SemaUpIs(s, l);
    UppedFrame(s, l);
  }

  predicate WakesFirst(s: State, s': State, l: LockId) {
    var ws := Lk(s.locks, l).waiters;
    if ws == [] then s'.ready == s.ready && Lk(s'.locks, l).waiters == [] else
    && Th(s'.threads, ws[0]).status == Ready && s'.ready == [ws[0]] + s.ready
    && Lk(s'.locks, l).waiters == ws[1..]
  }

  lemma UppedFrame(s: State, l: LockId)
    requires Waiting(s) && Me(s).status == Running
    ensures Stays(s, Upped(s, l)) && Me(Upped(s, l)) == Me(s).(pc := AfterRelease(Me(s)))
    ensures WakesFirst(s, Upped(s, l), l)
  {
    if Lk(s.locks, l).waiters != [] {
      FirstWaits(s, l);
    }
  }

  lemma AcquireFrame(s: State)
    requires (Me(s).pc.Again? || Me(s).pc.Hold? || Me(s).pc.Check? || Me(s).pc.One?) && GoStep(s).Next?
    ensures Stays(s, GoStep(s).s)
  {
  }

  lemma ReleaseFrame(s: State)
    requires (Me(s).pc.Many? || Me(s).pc.Less? || Me(s).pc.Last? || Me(s).pc.Drop? || Me(s).pc.Zero?) && GoStep(s).Next?
    ensures Stays(s, GoStep(s).s)
  {
  }

  // ----- the queue code

  lemma WakeConsumerFrame(s: State, q: nat)
    ensures WakeConsumer(s, q).Next? ==> Stays(s, WakeConsumer(s, q).s)
  {
  }

  lemma WakeProducerFrame(s: State, q: nat)
    ensures WakeProducer(s, q).Next? ==> Stays(s, WakeProducer(s, q).s)
  {
  }

  lemma TestFrame(s: State)
    requires CallTest(s).Next?
    ensures Stays(s, CallTest(s).s)
  {
    var left := Me(s).(pc := Client, call := NoCall);
    match Me(s).call
    case NoCall =>
    case GetChar(q) => WakeProducerFrame(SetMe(WithQueue(s, q, TakeByte(Qu(s.queues, q))), left), q);
    case PutChar(q, byte) => WakeConsumerFrame(SetMe(WithQueue(s, q, AddByte(Qu(s.queues, q), byte)), left), q);
  }

  lemma SleepFrame(s: State)
    requires Inv(s, true) && Me(s).pc == IoSleep
    ensures GoStep(s).Next? && Frame(s, GoStep(s).s) && GoStep(s).s.running != s.running && Me(s).call != NoCall
    ensures Spared(Me(Asleep(s)), Th(GoStep(s).s.threads, s.running))
  {
    GoKeeps(s);
    assert LocalOk(Me(s), Flag(s, s.running));
    SlotsFree(s);
    IoWaitIs(s);
    AsleepPlacement(s);
    DispatchFrame(s, Asleep(s));
  }

  lemma KeyFrame(s: State, q: nat, byte: char)
    requires KeyPress(s, q, byte).Next?
    ensures Stays(s, KeyPress(s, q, byte).s)
  {
    WakeConsumerFrame(WithQueue(s, q, AddByte(Qu(s.queues, q), byte)), q);
  }

  // ----- interrupts

  lemma TickFrame(s: State)
    requires Inv(s, true) && s.intr
    ensures ClockTick(s).Next? && Frame(s, ClockTick(s).s)
    ensures if Me(s).ticks == 0 then
      && Spared(Me(Preempted(s)), Th(ClockTick(s).s.threads, s.running))
      && (ClockTick(s).s.running == s.running ==> ClockTick(s).s.intr == s.intr)
    else Stays(s, ClockTick(s).s) && Me(ClockTick(s).s) == Me(s).(ticks := Me(s).ticks - 1)
  {
    TickKeeps(s);
    assert Me(s).status == Running;
    if Me(s).ticks == 0 {
      PreemptedPlacement(s);
      PreemptIs(s);
      DispatchFrame(s, Preempted(s));
    }
  }

  lemma GoFrame(s: State)
    requires Inv(s, true) && Me(s).pc != Client
    ensures GoStep(s).Next? && Frame(s, GoStep(s).s)
  {
    match Me(s).pc
    case Down(l) => SemaFrame(s, l);
    case Retest(l) => SemaFrame(s, l);
    case IoSleep => SleepFrame(s);
    case _ => GoStays(s);
  }

  lemma SemaFrame(s: State, l: LockId)
    requires Inv(s, true) && (Me(s).pc == Down(l) || Me(s).pc == Retest(l))
    ensures GoStep(s).Next? && Frame(s, GoStep(s).s)
  {
    GoKeeps(s);
    if Lk(s.locks, l).value == 0 {
      BlockFrame(s, l);
    } else {
      TakeFrame(s, l);
    }
  }

  lemma ResumeFrame(s: State)
    requires Me(s).pc == IoSlept && GoStep(s).Next?
    ensures Stays(s, GoStep(s).s)
  {
  }

  lemma GoStays(s: State)
    requires Inv(s, true) && Me(s).pc != Client && !Me(s).pc.Down? && !Me(s).pc.Retest? && Me(s).pc != IoSleep
    ensures GoStep(s).Next? && Stays(s, GoStep(s).s)
  {
    GoKeeps(s);
    match Me(s).pc
    case Up(l) => UpFrame(s, l);
    case IoTest => TestFrame(s);
    case IoSlept => ResumeFrame(s);
    case _ => if Me(s).pc.Again? || Me(s).pc.Hold? || Me(s).pc.Check? || Me(s).pc.One? { AcquireFrame(s); }
              else { ReleaseFrame(s); }
  }

  /** Whatever happens, a thread that is not running is at most woken or dispatched. */
  lemma StepSpares(s: State, a: Action)
    requires Inv(s, true) && Enabled(s, a) && Legal(s, a) && !a.CallStart?
    ensures Step(s, a).Next? && Frame(s, Step(s, a).s)
  {
    StepKeeps(s, a);
    match a
    case Go => GoFrame(s);
    case Tick => TickFrame(s);
    case Key(q, byte) => KeyFrame(s, q, byte);
    case CallGet(q) => TestFrame(Entered(s, GetChar(q)));
    case CallPut(q, byte) => TestFrame(Entered(s, PutChar(q, byte)));
    case _ => DirectFrame(s, a);
  }

  lemma DirectFrame(s: State, a: Action)
    requires a.CallAcquire? || a.CallRelease? || a.CallSetIntr?
    requires Step(s, a).Next?
    ensures Stays(s, Step(s, a).s.(intr := s.intr)) && Step(s, a).s.intr == if a.CallSetIntr? then a.on else s.intr
  {
  }

  /** A thread that is started waits at the end of the ready list, outside all locks and queues, with
      its whole quantum and interrupts on; nothing else changes. */
  lemma StartMakes(s: State, t: Tid, priority: nat)
    requires Inv(s, true) && Enabled(s, CallStart(t, priority))
    ensures Step(s, CallStart(t, priority)).Next?
    ensures var s' := Step(s, CallStart(t, priority)).s; var th := Th(s'.threads, t);
      && th.status == Ready && th.savedIf && th.pc == Client && th.call == NoCall && (forall l :: Depth(th, l) == 0)
      && th.ticks == th.priority == priority
      && s' == s.(threads := s'.threads, ready := s.ready + [t])
      && forall u: Tid :: u != t ==> Th(s'.threads, u) == Th(s.threads, u)
  {
    SpawnKeeps(s, t, priority);
  }
}
