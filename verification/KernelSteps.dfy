/** Every step keeps the invariant and fails no ASSERT. */
module KernelSteps {
  import opened Common
  import opened KernelState
  import opened Scheduling
  import opened Locking
  import opened IoQueues
  import opened KernelSystem
  import opened KernelInvariant

  /** What is known of main before one of its steps in the lock code. */
  predicate MainReady(s: State) {
    (s.running == MAIN ==> s.booting && MainOk(Me(s), true)) && (s.booting ==> s.running == MAIN && !s.intr)
  }

  lemma TestHolderQuiet(s: State, l: LockId)
    requires MeOk(s, l) && MainReady(s)
    requires (Me(s).pc == Client && l.Plain?) || (Me(s).pc == IoTest && l == QueueLock(Me(s).call.q))
    requires Depth(Me(s), l) + 1 < U32
    ensures TestHolder(s, l).Next? && Quiet(s, TestHolder(s, l).s, l) && MeOk(TestHolder(s, l).s, l)
  {
    forall q: nat ensures QueueDepthOk(Me(TestHolder(s, l).s), q) {
      assert QueueDepthOk(Me(s), q);
    }
  }

  lemma QueueDepthsAt(th: Thread, th': Thread, l: LockId)
    requires forall q: nat :: QueueDepthOk(th, q)
    requires th.call == th'.call && (if th.call == NoCall then l.Plain? else l == QueueLock(th.call.q))
    requires forall k :: k != l ==> Depth(th', k) == Depth(th, k)
    requires l.QueueLock? ==> QueueDepthOk(th', l.q)
    ensures forall q: nat :: QueueDepthOk(th', q)
  {
    forall q: nat ensures QueueDepthOk(th', q) {
      assert QueueDepthOk(th, q);
    }
  }

  lemma CountAgainQuiet(s: State, l: LockId)
    requires MeOk(s, l) && MainReady(s) && Me(s).pc == Again(l)
    ensures CountAgain(s, l).Next? && Quiet(s, CountAgain(s, l).s, l) && MeOk(CountAgain(s, l).s, l)
  {
    assert Owns(Me(s), l);
    assert l.QueueLock? ==> QueueDepthOk(Me(s), l.q);
    QueueDepthsAt(Me(s), Me(CountAgain(s, l).s), l);
  }

  lemma TakeHoldQuiet(s: State, l: LockId)
    requires MeOk(s, l) && MainReady(s) && Me(s).pc == Hold(l)
    ensures TakeHold(s, l).Next? && Quiet(s, TakeHold(s, l).s, l) && MeOk(TakeHold(s, l).s, l)
  {
    assert Owns(Me(s), l);
    assert l.QueueLock? ==> QueueDepthOk(Me(s), l.q);
    QueueDepthsAt(Me(s), Me(TakeHold(s, l).s), l);
  }

  lemma CheckCountQuiet(s: State, l: LockId)
    requires MeOk(s, l) && MainReady(s) && Me(s).pc == Check(l)
    ensures CheckCount(s, l).Next? && Quiet(s, CheckCount(s, l).s, l) && MeOk(CheckCount(s, l).s, l)
  {
    assert Owns(Me(s), l);
    assert l.QueueLock? ==> QueueDepthOk(Me(s), l.q);
    QueueDepthsAt(Me(s), Me(CheckCount(s, l).s), l);
  }

  lemma SetCountQuiet(s: State, l: LockId)
    requires MeOk(s, l) && MainReady(s) && Me(s).pc == One(l)
    ensures SetCount(s, l).Next? && Quiet(s, SetCount(s, l).s, l) && MeOk(SetCount(s, l).s, l)
  {
    assert Owns(Me(s), l);
    assert l.QueueLock? ==> QueueDepthOk(Me(s), l.q);
    QueueDepthsAt(Me(s), Me(SetCount(s, l).s), l);
  }

  lemma TestCountQuiet(s: State, l: LockId)
    requires MeOk(s, l) && MainReady(s) && Me(s).pc == Many(l)
    ensures TestCount(s, l).Next? && Quiet(s, TestCount(s, l).s, l) && MeOk(TestCount(s, l).s, l)
  {
    assert Owns(Me(s), l);
    assert l.QueueLock? ==> QueueDepthOk(Me(s), l.q);
    QueueDepthsAt(Me(s), Me(TestCount(s, l).s), l);
  }

  lemma CountLessQuiet(s: State, l: LockId)
    requires MeOk(s, l) && MainReady(s) && Me(s).pc == Less(l)
    ensures CountLess(s, l).Next? && Quiet(s, CountLess(s, l).s, l) && MeOk(CountLess(s, l).s, l)
  {
    assert Owns(Me(s), l);
    assert l.QueueLock? ==> QueueDepthOk(Me(s), l.q);
    QueueDepthsAt(Me(s), Me(CountLess(s, l).s), l);
  }

  lemma CheckLastQuiet(s: State, l: LockId)
    requires MeOk(s, l) && MainReady(s) && Me(s).pc == Last(l)
    ensures CheckLast(s, l).Next? && Quiet(s, CheckLast(s, l).s, l) && MeOk(CheckLast(s, l).s, l)
  {
    assert Owns(Me(s), l);
    assert l.QueueLock? ==> QueueDepthOk(Me(s), l.q);
    QueueDepthsAt(Me(s), Me(CheckLast(s, l).s), l);
  }

  lemma DropHoldQuiet(s: State, l: LockId)
    requires MeOk(s, l) && MainReady(s) && Me(s).pc == Pc.Drop(l)
    ensures DropHold(s, l).Next? && Quiet(s, DropHold(s, l).s, l) && MeOk(DropHold(s, l).s, l)
  {
    assert Owns(Me(s), l);
    assert l.QueueLock? ==> QueueDepthOk(Me(s), l.q);
    QueueDepthsAt(Me(s), Me(DropHold(s, l).s), l);
  }

  lemma ZeroCountQuiet(s: State, l: LockId)
    requires MeOk(s, l) && MainReady(s) && Me(s).pc == Zero(l)
    ensures ZeroCount(s, l).Next? && Quiet(s, ZeroCount(s, l).s, l) && MeOk(ZeroCount(s, l).s, l)
  {
    assert Owns(Me(s), l);
    assert l.QueueLock? ==> QueueDepthOk(Me(s), l.q);
    QueueDepthsAt(Me(s), Me(ZeroCount(s, l).s), l);
  }

  lemma ReleaseQuiet(s: State, l: LockId)
    requires MeOk(s, l) && MainReady(s) && Depth(Me(s), l) > 0
    requires (Me(s).pc == Client && l.Plain?) || (Me(s).pc == IoSlept && l == QueueLock(Me(s).call.q))
    ensures Release(s, l).Next? && Quiet(s, Release(s, l).s, l) && MeOk(Release(s, l).s, l)
  {
    assert Owns(Me(s), l);
    assert l.QueueLock? ==> QueueDepthOk(Me(s), l.q);
    QueueDepthsAt(Me(s), Me(Release(s, l).s), l);
  }

  /** sema_dowm finds the value 1. */
  lemma DownTakeQuiet(s: State, l: LockId)
    requires MeOk(s, l) && MainReady(s) && Lk(s.locks, l).value == 1
    requires Me(s).pc == Down(l) || Me(s).pc == Retest(l)
    ensures GoStep(s).Next? && Quiet(s, GoStep(s).s, l) && MeOk(GoStep(s).s, l)
  {
    QueueDepthsAt(Me(s), Me(GoStep(s).s), l);
  }

  // ----- going to sleep on a lock

  /** sema_dowm has found the value 0 and put the running thread into the waiter list. */
  function Queued(s: State, l: LockId): State {
    var lk := Lk(s.locks, l);
    var th := Me(s).(pc := Retest(l), status := Blocked, savedIf := false,
                     oldIf := if Me(s).pc.Down? then s.intr else Me(s).oldIf);
    SetMe(WithLock(s, l, lk.(waiters := lk.waiters + [s.running])).(intr := false), th)
  }

  lemma QueuedPlacement(s: State, l: LockId)
    requires Placement(s, true) && Me(s).status == Running
    ensures Placement(Queued(s, l), false)
    ensures s.running !in Lk(s.locks, l).waiters
  {
    var s' := Queued(s, l);
    assert !WaitsOn(Me(s), l);
    forall k
      ensures Lk(s'.locks, k).waiters == if k == l then Lk(s.locks, l).waiters + [s.running] else Lk(s.locks, k).waiters
    {
    }
  }

  lemma QueuedKeeps(s: State, l: LockId)
    requires Inv(s, true) && MeOk(s, l) && s.running != MAIN && Lk(s.locks, l).value == 0
    requires Me(s).pc == Down(l) || Me(s).pc == Retest(l)
    ensures Inv(Queued(s, l), false)
  {
    var s' := Queued(s, l);
    QueuedPlacement(s, l);
    QueuedRest(s, l);
    LocksKept(s, s');
    WakeupsKept(s, s');
  }

  lemma QueuedRest(s: State, l: LockId)
    requires Inv(s, true) && s.running != MAIN && (Me(s).pc == Down(l) || Me(s).pc == Retest(l))
    ensures QueueDepths(Queued(s, l)) && Locals(Queued(s, l)) && MainOk(Th(Queued(s, l).threads, MAIN), s.booting)
  {
    assert LocalOk(Me(s), Flag(s, s.running));
    QueueDepthsKept(s, Queued(s, l));
  }

  lemma DownBlockIs(s: State, l: LockId)
    requires Lk(s.locks, l).value == 0 && s.running !in Lk(s.locks, l).waiters
    requires Me(s).pc == Down(l) || (Me(s).pc == Retest(l) && !s.intr)
    ensures GoStep(s) == Dispatch(Queued(s, l))
  {
    var s1 := if Me(s).pc.Down? then SetMe(s, Me(s).(oldIf := s.intr)).(intr := false) else s;
    SetThTwice(s.threads, s.running, Me(s1), Me(s1).(pc := Retest(l)));
    SetThTwice(s.threads, s.running, Me(s1).(pc := Retest(l)), Me(Queued(s, l)));
  }

  lemma DownBlockKeeps(s: State, l: LockId)
    requires Inv(s, true) && s.running != MAIN && Lk(s.locks, l).value == 0
    requires Me(s).pc == Down(l) || Me(s).pc == Retest(l)
    ensures GoStep(s).Next? && Inv(GoStep(s).s, true)
  {
    InvMeOk(s, l);
    QueuedPlacement(s, l);
    DownBlockIs(s, l);
    QueuedKeeps(s, l);
    DispatchKeeps(Queued(s, l));
  }
}
