/** sync.c: the re-testing binary semaphore and the recursive lock. Every function is one
    step of the running thread. */
module Locking {
  import opened Common
  import opened KernelState
  import opened Scheduling

  function AfterAcquire(th: Thread): Pc {
    if th.call.NoCall? then Client else IoSleep
  }

  function AfterRelease(th: Thread): Pc {
    if th.call.NoCall? then Client else IoTest
  }

  /** sync.c:53. */
  function TestHolder(s: State, l: LockId): Outcome {
    Next(Goto(s, if Lk(s.locks, l).holder == Some(s.running) then Again(l) else Down(l)))
  }

  /** sync.c:59; the counter is a u32. */
  function CountAgain(s: State, l: LockId): Outcome {
    var lk := Lk(s.locks, l);
    var th := SetDepth(Me(s), l, Depth(Me(s), l) + 1).(pc := AfterAcquire(Me(s)));
    Next(SetMe(WithLock(s, l, lk.(repeat := (lk.repeat + 1) % U32)), th))
  }

  /** sync.c:16: interrupts go off, then the loop is entered. */
  function SemaDown(s: State, l: LockId): Outcome {
    DownLoop(SetMe(s, Me(s).(oldIf := s.intr)).(intr := false), l)
  }

  /** sync.c:17-24, from one test of the value to the next or to the end. */
  function DownLoop(s: State, l: LockId): Outcome {
    var lk := Lk(s.locks, l);
    if lk.value == 0 then
      if s.running in lk.waiters then Panic(SyncC, 18) else
      ThreadBlock(WithLock(Goto(s, Retest(l)), l, lk.(waiters := lk.waiters + [s.running])))
    else if lk.value - 1 != 0 then
      Panic(SyncC, 23)
    else
      Next(WithLock(Goto(s, Hold(l)), l, lk.(value := lk.value - 1, owner := Some(s.running)))
           .(intr := Me(s).oldIf))
  }

  /** sync.c:55. */
  function TakeHold(s: State, l: LockId): Outcome {
    Next(Goto(WithLock(s, l, Lk(s.locks, l).(holder := Some(s.running))), Check(l)))
  }

  /** sync.c:56. */
  function CheckCount(s: State, l: LockId): Outcome {
    if Lk(s.locks, l).repeat != 0 then Panic(SyncC, 56) else Next(Goto(s, One(l)))
  }

  /** sync.c:57. */
  function SetCount(s: State, l: LockId): Outcome {
    var th := SetDepth(Me(s), l, Depth(Me(s), l) + 1).(pc := AfterAcquire(Me(s)));
    Next(SetMe(WithLock(s, l, Lk(s.locks, l).(repeat := 1)), th))
  }

  /** sync.c:66. */
  function Release(s: State, l: LockId): Outcome {
    if Lk(s.locks, l).holder != Some(s.running) then Panic(SyncC, 66) else Next(Goto(s, Many(l)))
  }

  /** sync.c:67. */
  function TestCount(s: State, l: LockId): Outcome {
    Next(Goto(s, if Lk(s.locks, l).repeat > 1 then Less(l) else Last(l)))
  }

  /** sync.c:68. */
  function CountLess(s: State, l: LockId): Outcome {
    var lk := Lk(s.locks, l);
    var th := SetDepth(Me(s), l, if Depth(Me(s), l) == 0 then 0 else Depth(Me(s), l) - 1);
    Next(SetMe(WithLock(s, l, lk.(repeat := (lk.repeat + U32 - 1) % U32)), th.(pc := AfterRelease(th))))
  }

  /** sync.c:71. */
  function CheckLast(s: State, l: LockId): Outcome {
    if Lk(s.locks, l).repeat != 1 then Panic(SyncC, 71) else Next(Goto(s, Drop(l)))
  }

  /** sync.c:72. */
  function DropHold(s: State, l: LockId): Outcome {
    var th := SetDepth(Me(s), l, 0).(pc := Zero(l));
    Next(SetMe(WithLock(s, l, Lk(s.locks, l).(holder := None)), th))
  }

  /** sync.c:73. */
  function ZeroCount(s: State, l: LockId): Outcome {
    Next(Goto(WithLock(s, l, Lk(s.locks, l).(repeat := 0)), Up(l)))
  }

  /** sync.c:29-39; interrupts are off throughout and restored at the end. */
  function SemaUp(s: State, l: LockId): Outcome {
    var lk := Lk(s.locks, l);
    if lk.value != 0 then Panic(SyncC, 31) else
    var woken := WakeWaiter(s, l);
    if woken.Panic? then woken else SemaGive(woken.s, l)
  }

  /** sync.c:32-36. */
  function WakeWaiter(s: State, l: LockId): Outcome {
    var lk := Lk(s.locks, l);
    if lk.waiters == [] then Next(s)
    else ThreadUnblock(WithLock(s, l, lk.(waiters := lk.waiters[1..])), lk.waiters[0])
  }

  /** sync.c:37-39. */
  function SemaGive(s: State, l: LockId): Outcome {
    var lk := Lk(s.locks, l);
    if lk.value + 1 != 1 then Panic(SyncC, 38) else
    Next(Goto(WithLock(s, l, lk.(value := lk.value + 1, owner := None)), AfterRelease(Me(s))))
  }
}
