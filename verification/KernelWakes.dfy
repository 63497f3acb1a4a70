/** The steps that wake threads, move bytes, or start, preempt and put to sleep threads
    outside the lock code keep the invariant and fail no ASSERT. */
module KernelWakes {
  import opened Common
  import opened KernelState
  import opened Scheduling
  import opened Locking
  import opened IoQueues
  import opened KernelSystem
  import opened KernelInvariant

  // ----- sema_up

  /** The state sema_up leaves when its asserts hold. */
  function Upped(s: State, l: LockId): State {
    var lk := Lk(s.locks, l);
    var freed := lk.(value := 1, owner := None);
    var th := Me(s).(pc := AfterRelease(Me(s)));
    if lk.waiters == [] then
      SetMe(WithLock(s, l, freed), th)
    else
      var w := lk.waiters[0];
      var woken := s.(threads := SetTh(s.threads, w, Th(s.threads, w).(status := Ready)), ready := [w] + s.ready);
      SetMe(WithLock(woken, l, freed.(waiters := lk.waiters[1..])), th)
  }

  lemma SemaUpIs(s: State, l: LockId)
    requires Placement(s, true) && Lk(s.locks, l).value == 0
    ensures SemaUp(s, l) == Next(Upped(s, l))
  {
    var lk := Lk(s.locks, l);
    if lk.waiters != [] {
      assert lk.waiters[0] in lk.waiters;
      assert WaitsOn(Th(s.threads, lk.waiters[0]), l);
      var popped := lk.(waiters := lk.waiters[1..]);
      SetLkTwice(s.locks, l, popped, popped.(value := 1, owner := None));
    }
  }

  lemma UppedPlacement(s: State, l: LockId)
    requires Placement(s, true) && Me(s).status == Running
    ensures Placement(Upped(s, l), true)
  {
    UppedRunnable(s, l);
    UppedWaiting(s, l);
    UppedSlotted(s, l);
  }

  lemma FirstWaits(s: State, l: LockId)
    requires Waiting(s) && Lk(s.locks, l).waiters != []
    ensures WaitsOn(Th(s.threads, Lk(s.locks, l).waiters[0]), l)
  {
    assert Lk(s.locks, l).waiters[0] in Lk(s.locks, l).waiters;
  }

  lemma UppedRunnable(s: State, l: LockId)
    requires Runnable(s, true) && Waiting(s) && Me(s).status == Running
    ensures Runnable(Upped(s, l), true)
  {
    if Lk(s.locks, l).waiters != [] {
      FirstWaits(s, l);
    }
  }

  lemma UppedWaiting(s: State, l: LockId)
    requires Waiting(s) && Me(s).status == Running
    ensures Waiting(Upped(s, l))
  {
    var s', ws := Upped(s, l), Lk(s.locks, l).waiters;
    if ws != [] {
      FirstWaits(s, l);
    }
    forall k ensures Lk(s'.locks, k).waiters == if k == l && ws != [] then ws[1..] else Lk(s.locks, k).waiters {}
  }

  lemma UppedSlotted(s: State, l: LockId)
    requires Waiting(s) && Slotted(s) && Me(s).status == Running
    ensures Slotted(Upped(s, l))
  {
    if Lk(s.locks, l).waiters != [] {
      FirstWaits(s, l);
    }
  }

  /** How sema_up looks to the locks. */
  ghost predicate GaveUp(s: State, s': State, l: LockId) {
    && Me(s).pc == Up(l) && Neutral(Th(s'.threads, s.running).pc)
    && (forall t: Tid :: Th(s'.threads, t).depth == Th(s.threads, t).depth)
    && (forall t: Tid :: t != s.running ==> Th(s'.threads, t).pc == Th(s.threads, t).pc)
    && (forall k :: k != l ==> Lk(s'.locks, k) == Lk(s.locks, k))
    && SameLock(Lk(s'.locks, l), Lk(s.locks, l).(value := 1, owner := None))
  }

  lemma UppedGaveUp(s: State, l: LockId)
    requires Placement(s, true) && Me(s).status == Running && Me(s).pc == Up(l)
    ensures GaveUp(s, Upped(s, l), l)
  {
    var ws := Lk(s.locks, l).waiters;
    if ws != [] {
      assert ws[0] in ws;
      assert WaitsOn(Th(s.threads, ws[0]), l);
    }
  }

  lemma GaveUpLocks(s: State, s': State, l: LockId)
    requires Locks(s) && GaveUp(s, s', l)
    ensures Locks(s')
  {
    forall k ensures LockOk(s'.threads, Lk(s'.locks, k), k) {
      assert LockOk(s.threads, Lk(s.locks, k), k);
      if k == l {
        assert Owns(Me(s), l);
      } else {
        LockKept(s.threads, s'.threads, Lk(s.locks, k), Lk(s'.locks, k), k);
      }
    }
  }

  lemma UppedWakeups(s: State, l: LockId)
    requires Waiting(s) && Me(s).status == Running && Wakeups(s) && Me(s).pc == Up(l)
    ensures Wakeups(Upped(s, l))
  {
    var s' := Upped(s, l);
    var ws := Lk(s.locks, l).waiters;
    if ws != [] {
      FirstWaits(s, l);
      assert Woken(Th(s'.threads, ws[0]), l);
    }
    forall k ensures NoLostWakeup(s'.threads, Lk(s'.locks, k), k) {
      if k != l {
        UppedElsewhere(s, l, k);
      }
    }
  }

  lemma UppedElsewhere(s: State, l: LockId, k: LockId)
    requires Waiting(s) && Me(s).status == Running && Wakeups(s) && Me(s).pc == Up(l) && k != l
    ensures NoLostWakeup(Upped(s, l).threads, Lk(Upped(s, l).locks, k), k)
  {
    assert NoLostWakeup(s.threads, Lk(s.locks, k), k);
    if Lk(s.locks, k).value == 1 && Lk(s.locks, k).waiters != [] {
      var t: Tid :| Woken(Th(s.threads, t), k);
      StaysWoken(s, l, k, t);
    }
  }

  lemma StaysWoken(s: State, l: LockId, k: LockId, t: Tid)
    requires Waiting(s) && Me(s).status == Running && Me(s).pc == Up(l) && Woken(Th(s.threads, t), k)
    ensures Woken(Th(Upped(s, l).threads, t), k)
  {
    if Lk(s.locks, l).waiters != [] {
      FirstWaits(s, l);
    }
  }

  lemma UppedLocals(s: State, l: LockId)
    requires Placement(s, true) && Me(s).status == Running && Locals(s) && QueueDepths(s) && Me(s).pc == Up(l)
    ensures Locals(Upped(s, l)) && QueueDepths(Upped(s, l))
  {
    forall t: Tid ensures LocalOk(Th(Upped(s, l).threads, t), Flag(Upped(s, l), t)) {
      UppedLocal(s, l, t);
    }
    UppedDepths(s, l);
  }

  lemma UppedLocal(s: State, l: LockId, t: Tid)
    requires Runnable(s, true) && Waiting(s) && Me(s).status == Running && Locals(s) && Me(s).pc == Up(l)
    ensures LocalOk(Th(Upped(s, l).threads, t), Flag(Upped(s, l), t))
  {
    if Lk(s.locks, l).waiters != [] {
      FirstWaits(s, l);
    }
    assert LocalOk(Th(s.threads, t), Flag(s, t));
  }

  lemma UppedDepths(s: State, l: LockId)
    requires Waiting(s) && Me(s).status == Running && QueueDepths(s) && Me(s).pc == Up(l)
    ensures QueueDepths(Upped(s, l))
  {
    if Lk(s.locks, l).waiters != [] {
      FirstWaits(s, l);
    }
    QueueDepthsKept(s, Upped(s, l));
  }

  lemma SemaUpKeeps(s: State, l: LockId)
    requires Inv(s, true) && Me(s).pc == Up(l)
    ensures SemaUp(s, l).Next? && Inv(SemaUp(s, l).s, true)
  {
    InvMeOk(s, l);
    assert Owns(Me(s), l);
    SemaUpIs(s, l);
    UppedKeeps(s, l);
  }

  lemma UppedKeeps(s: State, l: LockId)
    requires Inv(s, true) && Me(s).pc == Up(l)
    ensures Inv(Upped(s, l), true)
  {
    assert Me(s).status == Running;
    UppedPlacement(s, l);
    UppedGaveUp(s, l);
    GaveUpLocks(s, Upped(s, l), l);
    UppedWakeups(s, l);
    UppedLocals(s, l);
    UppedMain(s, l);
  }

  lemma UppedMain(s: State, l: LockId)
    requires Inv(s, true) && Me(s).pc == Up(l)
    ensures Rings(Upped(s, l)) && MainOk(Th(Upped(s, l).threads, MAIN), s.booting) && Alone(Upped(s, l))
  {
    assert Me(s).status == Running;
    if Lk(s.locks, l).waiters != [] {
      FirstWaits(s, l);
    }
  }

  // ----- steps that move only the running thread and the bytes of queues

  /** s' differs from s in the running thread's call and place outside the locks, in the
      interrupt flag, and in the contents but not the slots of queues. */
  ghost predicate Moved(s: State, s': State) {
    var me, th := Me(s), Me(s');
    && s' == s.(threads := s'.threads, queues := s'.queues, intr := s'.intr, booting := s'.booting)
    && (forall t: Tid :: t != s.running ==> Th(s'.threads, t) == Th(s.threads, t))
    && th.status == me.status == Running
    && SameHold(me, th) && !me.pc.Retest?
    && (s.running == MAIN ==> MainOk(th, s'.booting)) && (s'.booting ==> s.booting && !s'.intr)
    && (forall q: nat :: SameSlots(Qu(s.queues, q), Qu(s'.queues, q)) && RingOk(Qu(s'.queues, q)))
  }

  predicate SameSlots(a: Queue, b: Queue) {
    a.consumer == b.consumer && a.producer == b.producer
  }

  lemma MovedPlacement(s: State, s': State)
    requires Placement(s, true) && Moved(s, s')
    ensures Placement(s', true)
  {
    forall q: nat, t: Tid ensures Qu(s'.queues, q).consumer == Some(t) <==> ReaderAsleep(Th(s'.threads, t), q) {
      assert SameSlots(Qu(s.queues, q), Qu(s'.queues, q));
    }
    forall q: nat, t: Tid ensures Qu(s'.queues, q).producer == Some(t) <==> WriterAsleep(Th(s'.threads, t), q) {
      assert SameSlots(Qu(s.queues, q), Qu(s'.queues, q));
    }
  }

  lemma MovedKeeps(s: State, s': State)
    requires Inv(s, true) && Moved(s, s') && LocalOk(Me(s'), s'.intr)
    requires forall q: nat :: QueueDepthOk(Me(s'), q)
    ensures Inv(s', true)
  {
    MovedPlacement(s, s');
    LocksKept(s, s');
    WakeupsKept(s, s');
  }
}
