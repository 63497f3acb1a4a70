/** The invariant of the step system. */
module KernelInvariant {
  import opened Common
  import opened KernelState
  import opened Scheduling
  import opened Locking
  import opened IoQueues
  import opened KernelSystem

  ghost predicate NoDup(s: seq<Tid>) {
    forall i, j :: 0 <= i < j < |s| ==> s[i] != s[j]
  }

  predicate WaitsOn(th: Thread, l: LockId) {
    th.status == Blocked && th.pc == Retest(l)
  }

  predicate ReaderAsleep(th: Thread, q: nat) {
    th.status == Blocked && th.pc == IoSlept && th.call == GetChar(q)
  }

  predicate WriterAsleep(th: Thread, q: nat) {
    th.status == Blocked && th.pc == IoSlept && th.call.PutChar? && th.call.q == q
  }

  /** Where every thread is: on the CPU, in the ready list, in one waiter list or in one
      queue slot. `live` is false in the middle of a switch, when nobody is RUNNING. */
  ghost predicate Placement(s: State, live: bool) {
    Runnable(s, live) && Waiting(s) && Slotted(s)
  }

  ghost predicate Runnable(s: State, live: bool) {
    && (forall t: Tid :: Th(s.threads, t).status == Running <==> live && t == s.running)
    && (forall t: Tid :: t in s.ready <==> Th(s.threads, t).status == Ready)
    && NoDup(s.ready)
  }

  ghost predicate Waiting(s: State) {
    && (forall l, t: Tid :: t in Lk(s.locks, l).waiters <==> WaitsOn(Th(s.threads, t), l))
    && (forall l :: NoDup(Lk(s.locks, l).waiters))
  }

  ghost predicate Slotted(s: State) {
    && (forall q: nat, t: Tid :: Qu(s.queues, q).consumer == Some(t) <==> ReaderAsleep(Th(s.threads, t), q))
    && (forall q: nat, t: Tid :: Qu(s.queues, q).producer == Some(t) <==> WriterAsleep(Th(s.threads, t), q))
  }

  /** What holds of one thread alone; `flag` is its interrupt flag. */
  predicate LocalOk(th: Thread, flag: bool) {
    && (th.pc == Client ==> th.call == NoCall)
    && (th.pc == IoTest || th.pc == IoSleep || th.pc == IoSlept ==> th.call != NoCall)
    && (AtLock(th.pc) ==> if th.call == NoCall then th.pc.l.Plain? else th.pc.l == QueueLock(th.call.q))
    && (th.status == Blocked ==> th.pc == IoSlept || th.pc.Retest?)
    && (th.call != NoCall || th.pc.Retest? ==> !flag)
    && (th.call != NoCall && th.pc.Retest? ==> !th.oldIf)
    && (th.pc == IoSleep || th.pc == IoSlept ==> Depth(th, QueueLock(th.call.q)) > 0)
    && (th.pc.Again? || th.pc.Many? || th.pc.Less? || th.pc.Last? || th.pc.Drop? ==> Depth(th, th.pc.l) > 0)
  }

  predicate SleepSpan(pc: Pc) {
    pc == IoSleep || pc == IoSlept || pc.Many? || pc.Last? || pc.Drop?
  }

  /** A queue's lock is held once, and only between getting it to sleep and giving it back. */
  predicate QueueDepthOk(th: Thread, q: nat) {
    Depth(th, QueueLock(q)) > 0 ==>
      && th.call != NoCall && th.call.q == q && Depth(th, QueueLock(q)) == 1
      && SleepSpan(th.pc)
  }

  function Flag(s: State, t: Tid): bool {
    if Th(s.threads, t).status == Running then s.intr else Th(s.threads, t).savedIf
  }

  /** Owning the semaphore, but with holder or the count not yet, or no longer, set. */
  predicate Windowed(pc: Pc, l: LockId) {
    (pc.Hold? || pc.Check? || pc.One? || pc.Zero? || pc.Up?) && pc.l == l
  }

  /** Past value-- and before value++. */
  predicate Owns(th: Thread, l: LockId) {
    Windowed(th.pc, l) || Depth(th, l) > 0
  }

  predicate OwnerOk(th: Thread, lk: Lock, l: LockId) {
    && lk.holder == (if th.pc == Hold(l) || th.pc == Zero(l) || th.pc == Up(l) then None else lk.owner)
    && lk.repeat == (if th.pc == Zero(l) then 1 else Depth(th, l))
    && lk.repeat < U32
    && (Windowed(th.pc, l) ==> Depth(th, l) == 0)
    && (th.pc == Last(l) || th.pc == Pc.Drop(l) ==> Depth(th, l) == 1)
    && (th.pc == Less(l) ==> Depth(th, l) > 1)
    && (th.pc == Again(l) ==> Depth(th, l) + 1 < U32)
  }

  ghost predicate LockOk(ts: map<Tid, Thread>, lk: Lock, l: LockId) {
    && lk.value == (if lk.owner == None then 1 else 0)
    && (forall t: Tid :: Owns(Th(ts, t), l) <==> lk.owner == Some(t))
    && (lk.owner == None ==> lk.holder == None && lk.repeat == 0)
    && (lk.owner.Some? ==> OwnerOk(Th(ts, lk.owner.value), lk, l))
  }

  predicate Woken(th: Thread, l: LockId) {
    th.pc == Retest(l) && (th.status == Ready || th.status == Running)
  }

  /** A free lock with waiters has a thread on its way to test the value again. */
  ghost predicate NoLostWakeup(ts: map<Tid, Thread>, lk: Lock, l: LockId) {
    lk.value == 1 && lk.waiters != [] ==> exists t: Tid :: Woken(Th(ts, t), l)
  }

  predicate RingOk(qu: Queue) {
    qu.written == qu.read + Pending(qu)
  }

  /** main never blocks; once interrupts are on it is outside the lock code. */
  predicate MainOk(th: Thread, booting: bool) {
    && th.call == NoCall && (th.status == Running || th.status == Ready)
    && (th.pc == Client || (booting && !th.pc.Retest? && (th.pc.Down? ==> Depth(th, th.pc.l) == 0)))
  }

  /** A thread that has not run yet, or does not exist. */
  ghost predicate Idle(th: Thread) {
    th.status != Blocked && th.pc == Client && forall l :: Depth(th, l) == 0
  }

  /** Until main enables interrupts nobody else has run. */
  ghost predicate Alone(s: State) {
    s.booting ==> s.running == MAIN && !s.intr && forall t: Tid :: t != MAIN ==> Idle(Th(s.threads, t))
  }

  ghost predicate Locals(s: State) {
    forall t: Tid :: LocalOk(Th(s.threads, t), Flag(s, t))
  }

  ghost predicate QueueDepths(s: State) {
    forall t: Tid, q: nat :: QueueDepthOk(Th(s.threads, t), q)
  }

  ghost predicate Locks(s: State) {
    forall l :: LockOk(s.threads, Lk(s.locks, l), l)
  }

  ghost predicate Wakeups(s: State) {
    forall l :: NoLostWakeup(s.threads, Lk(s.locks, l), l)
  }

  ghost predicate Rings(s: State) {
    forall q: nat :: RingOk(Qu(s.queues, q))
  }

  ghost predicate Inv(s: State, live: bool) {
    && Placement(s, live)
    && Locals(s)
    && QueueDepths(s)
    && Locks(s)
    && Wakeups(s)
    && Rings(s)
    && MainOk(Th(s.threads, MAIN), s.booting)
    && Alone(s)
  }

  // ----- what a step has to show to keep the parts it does not touch

  predicate SameLock(a: Lock, b: Lock) {
    a.value == b.value && a.owner == b.owner && a.holder == b.holder && a.repeat == b.repeat
  }

  /** Program counters at which owning a lock puts no demand on its fields. */
  predicate Neutral(pc: Pc) {
    pc == Client || pc.Down? || pc.Retest? || pc.Many? || pc == IoTest || pc == IoSleep || pc == IoSlept
  }

  predicate SameHold(a: Thread, b: Thread) {
    a.depth == b.depth && (a.pc == b.pc || (Neutral(a.pc) && Neutral(b.pc)))
  }

  /** Two moments of one thread that look the same to lock l. */
  predicate SameHoldAt(a: Thread, b: Thread, l: LockId) {
    && Depth(a, l) == Depth(b, l)
    && (a.pc == b.pc || ((Neutral(a.pc) || a.pc.l != l) && (Neutral(b.pc) || b.pc.l != l)))
  }

  lemma LockKept(ts: map<Tid, Thread>, ts': map<Tid, Thread>, lk: Lock, lk': Lock, l: LockId)
    requires LockOk(ts, lk, l) && SameLock(lk, lk')
    requires forall t: Tid :: SameHoldAt(Th(ts, t), Th(ts', t), l)
    ensures LockOk(ts', lk', l)
  {
    forall t: Tid ensures Owns(Th(ts', t), l) == Owns(Th(ts, t), l) {
      assert SameHoldAt(Th(ts, t), Th(ts', t), l);
    }
    if lk.owner.Some? {
      assert SameHoldAt(Th(ts, lk.owner.value), Th(ts', lk.owner.value), l);
    }
  }

  lemma LocksKept(s: State, s': State)
    requires Locks(s)
    requires forall l :: SameLock(Lk(s.locks, l), Lk(s'.locks, l))
    requires forall t: Tid :: SameHold(Th(s.threads, t), Th(s'.threads, t))
    ensures Locks(s')
  {
    forall l ensures LockOk(s'.threads, Lk(s'.locks, l), l) {
      assert LockOk(s.threads, Lk(s.locks, l), l);
      assert SameLock(Lk(s.locks, l), Lk(s'.locks, l));
      forall t: Tid ensures SameHoldAt(Th(s.threads, t), Th(s'.threads, t), l) {
        assert SameHold(Th(s.threads, t), Th(s'.threads, t));
      }
      LockKept(s.threads, s'.threads, Lk(s.locks, l), Lk(s'.locks, l), l);
    }
  }

  lemma QueueDepthsKept(s: State, s': State)
    requires QueueDepths(s)
    requires forall t: Tid :: var a, b := Th(s.threads, t), Th(s'.threads, t);
      a.depth == b.depth && a.call == b.call && (SleepSpan(a.pc) ==> SleepSpan(b.pc))
    ensures QueueDepths(s')
  {
    forall t: Tid, q: nat ensures QueueDepthOk(Th(s'.threads, t), q) {
      assert QueueDepthOk(Th(s.threads, t), q);
    }
  }

  lemma WakeupsKept(s: State, s': State)
    requires Wakeups(s)
    requires forall l :: Lk(s'.locks, l).value == 1 && Lk(s'.locks, l).waiters != [] ==>
      Lk(s.locks, l).value == 1 && Lk(s.locks, l).waiters != []
    requires forall l, t: Tid :: Lk(s'.locks, l).value == 1 && Woken(Th(s.threads, t), l) ==>
      Woken(Th(s'.threads, t), l)
    ensures Wakeups(s')
  {
    forall l | Lk(s'.locks, l).value == 1 && Lk(s'.locks, l).waiters != []
      ensures exists t: Tid :: Woken(Th(s'.threads, t), l)
    {
      assert NoLostWakeup(s.threads, Lk(s.locks, l), l);
      var t: Tid :| Woken(Th(s.threads, t), l);
      assert Woken(Th(s'.threads, t), l);
    }
  }

  // ----- dispatch

  lemma DispatchPlacement(s: State)
    requires Placement(s, false) && s.ready != []
    ensures Dispatch(s).Next? && Placement(Dispatch(s).s, true)
  {
    assert s.ready[0] in s.ready;
  }

  lemma DispatchLocals(s: State)
    requires Placement(s, false) && s.ready != [] && Locals(s)
    ensures Locals(Dispatch(s).s)
  {
    assert s.ready[0] in s.ready;
  }

  lemma DispatchKeeps(s: State)
    requires Inv(s, false) && !s.booting
    ensures Dispatch(s).Next? && Inv(Dispatch(s).s, true)
  {
    assert MAIN in s.ready;
    DispatchPlacement(s);
    DispatchLocals(s);
    QueueDepthsKept(s, Dispatch(s).s);
    LocksKept(s, Dispatch(s).s);
    WakeupsKept(s, Dispatch(s).s);
  }

  // ----- steps that change only the running thread's place in the lock code and one lock

  /** s' differs from s only in the interrupt flag, the running thread and lock l. */
  ghost predicate OnlyMeAnd(s: State, s': State, l: LockId) {
    && s' == s.(threads := s'.threads, locks := s'.locks, intr := s'.intr)
    && (forall t: Tid :: t != s.running ==> Th(s'.threads, t) == Th(s.threads, t))
    && (forall k :: k != l ==> Lk(s'.locks, k) == Lk(s.locks, k))
  }

  /** Such a step that moves the running thread inside the code of lock l only, without
      letting go of the semaphore or touching its waiters. */
  ghost predicate Quiet(s: State, s': State, l: LockId) {
    var me, th := Me(s), Me(s');
    var was, lk := Lk(s.locks, l), Lk(s'.locks, l);
    && OnlyMeAnd(s, s', l)
    && th.status == me.status == Running
    && (AtLock(me.pc) ==> me.pc.l == l) && (AtLock(th.pc) ==> th.pc.l == l)
    && (forall k :: k != l ==> Depth(th, k) == Depth(me, k))
    && lk.waiters == was.waiters
    && (was.owner == lk.owner || (was.owner == None && lk.owner == Some(s.running)))
    && (lk.owner == None ==> !me.pc.Retest?)
    && (lk.owner != Some(s.running) ==> lk == was)
    && (s.running == MAIN ==> MainOk(th, s.booting)) && (s.booting ==> !s'.intr)
  }

  /** What is known of the running thread before one of its steps at lock l. */
  ghost predicate MeOk(s: State, l: LockId) {
    && Me(s).status == Running
    && LocalOk(Me(s), s.intr)
    && (forall q: nat :: QueueDepthOk(Me(s), q))
    && (Owns(Me(s), l) <==> Lk(s.locks, l).owner == Some(s.running))
    && Lk(s.locks, l).value == (if Lk(s.locks, l).owner == None then 1 else 0)
    && (Lk(s.locks, l).owner == None ==> Lk(s.locks, l).holder == None && Lk(s.locks, l).repeat == 0)
    && (Lk(s.locks, l).owner == Some(s.running) ==> OwnerOk(Me(s), Lk(s.locks, l), l))
    && (Lk(s.locks, l).owner != Some(s.running) ==> Lk(s.locks, l).holder != Some(s.running))
  }

  lemma InvMeOk(s: State, l: LockId)
    requires Inv(s, true)
    ensures MeOk(s, l)
  {
    assert LockOk(s.threads, Lk(s.locks, l), l);
    assert LocalOk(Me(s), Flag(s, s.running));
  }

  lemma QuietKeeps(s: State, s': State, l: LockId)
    requires Inv(s, true) && Quiet(s, s', l) && MeOk(s', l)
    ensures Inv(s', true)
  {
    QuietPlacement(s, s', l);
    QuietLocks(s, s', l);
    QuietRest(s, s', l);
  }

  lemma QuietPlacement(s: State, s': State, l: LockId)
    requires Placement(s, true) && OnlyMeAnd(s, s', l)
    requires Me(s').status == Running && Lk(s'.locks, l).waiters == Lk(s.locks, l).waiters
    ensures Placement(s', true)
  {
    assert Me(s).status == Running;
    forall k ensures Lk(s'.locks, k).waiters == Lk(s.locks, k).waiters {}
  }

  lemma QuietLocks(s: State, s': State, l: LockId)
    requires Locks(s) && Quiet(s, s', l) && MeOk(s', l)
    ensures Locks(s')
  {
    forall k ensures LockOk(s'.threads, Lk(s'.locks, k), k) {
      assert LockOk(s.threads, Lk(s.locks, k), k);
      if k != l {
        LockKept(s.threads, s'.threads, Lk(s.locks, k), Lk(s'.locks, k), k);
      }
    }
  }

  lemma QuietRest(s: State, s': State, l: LockId)
    requires Inv(s, true) && Quiet(s, s', l) && MeOk(s', l)
    ensures Locals(s') && QueueDepths(s') && Wakeups(s') && Rings(s') && MainOk(Th(s'.threads, MAIN), s'.booting) &&
      Alone(s')
  {
    forall k ensures Lk(s'.locks, k).waiters == Lk(s.locks, k).waiters {}
    WakeupsKept(s, s');
  }
}
