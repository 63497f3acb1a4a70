/** sync.c in its own form. */
module LockObject {
  import opened Common
  import opened KernelState
  import opened SchedulerObject
  import Scheduling
  import Locking
  import KernelSystem

  /** What writing to one lock and moving the running thread does to the whole state. */
  lemma Wrote(world: State, s: State, s': State, l: LockId, lk: Lock, lk': Lock, th: Thread)
    requires s.locks == SetLk(world.locks, l, lk)
    requires s' == s.(threads := SetTh(s.threads, s.running, th), locks := SetLk(world.locks, l, lk'))
    ensures s' == SetMe(WithLock(s, l, lk'), th)
  {
    SetLkTwice(world.locks, l, lk, lk');
  }

  /** Which step it is inside lock_acquire, ... */
  lemma Acquires(s: State, l: LockId)
    ensures Me(s).pc == Again(l) ==> KernelSystem.GoStep(s) == Locking.CountAgain(s, l)
    ensures Me(s).pc == Down(l) ==> KernelSystem.GoStep(s) == Locking.SemaDown(s, l)
    ensures Me(s).pc == Retest(l) ==> KernelSystem.GoStep(s) == Locking.DownLoop(s, l)
    ensures Me(s).pc == Hold(l) ==> KernelSystem.GoStep(s) == Locking.TakeHold(s, l)
    ensures Me(s).pc == Check(l) ==> KernelSystem.GoStep(s) == Locking.CheckCount(s, l)
    ensures Me(s).pc == One(l) ==> KernelSystem.GoStep(s) == Locking.SetCount(s, l)
  {
  }

  /** ... in the first half of lock_release, ... */
  lemma Releases(s: State, l: LockId)
    ensures Me(s).pc == Many(l) ==> KernelSystem.GoStep(s) == Locking.TestCount(s, l)
    ensures Me(s).pc == Less(l) ==> KernelSystem.GoStep(s) == Locking.CountLess(s, l)
    ensures Me(s).pc == Last(l) ==> KernelSystem.GoStep(s) == Locking.CheckLast(s, l)
  {
  }

  /** ... and in the second. */
  lemma GivesUp(s: State, l: LockId)
    ensures Me(s).pc == Pc.Drop(l) ==> KernelSystem.GoStep(s) == Locking.DropHold(s, l)
    ensures Me(s).pc == Zero(l) ==> KernelSystem.GoStep(s) == Locking.ZeroCount(s, l)
    ensures Me(s).pc == Up(l) ==> KernelSystem.GoStep(s) == Locking.SemaUp(s, l)
  {
  }

  /** struct lock with its struct semaphore. */
  class LockStruct {
    const id: LockId
    var value: nat
    var waiters: seq<Tid>
    var holder: Option<Tid>
    var repeat: nat
    ghost var owner: Option<Tid>

    ghost function Value(): Lock
      reads this
    {
      Lock(value, waiters, holder, repeat, owner)
    }

    ghost predicate WaitersOk(k: Scheduler)
      reads `waiters, k`tasks
    {
      forall i :: 0 <= i < |waiters| ==> waiters[i] in k.tasks
    }

    /** The whole state: this lock, the scheduler, and the rest of the world. */
    ghost function At(k: Scheduler, world: State): State
      reads this, k
    {
      k.In(WithLock(world, id, Value()))
    }

    /** lock_init. */
    constructor (id: LockId)
      ensures this.id == id && Value() == FRESH_LOCK
    {
      this.id := id;
      value, waiters, holder, repeat, owner := 1, [], None, 0, None;
    }

    /** sync.c:53. */
    method TestHolder(k: Scheduler, ghost world: State) returns (v: Verdict)
      requires k.Valid()
      modifies k`threads, k.structs
      ensures k.Valid() && Is(Locking.TestHolder(old(At(k, world)), id), v, At(k, world))
    {
      k.MoveTo(if holder == Some(k.running) then Again(id) else Down(id));
      v := Fine;
    }

    /** `holder_repeat_nr = n`, where the running thread gets to pc. */
    method Recount(n: nat, pc: Pc, ghost depth: nat, k: Scheduler, ghost world: State)
      requires k.Valid()
      modifies `repeat, k`threads, k.structs
      ensures k.Valid()
      ensures At(k, world) == SetMe(WithLock(old(At(k, world)), id, old(Value()).(repeat := n)),
                                    SetDepth(Me(old(At(k, world))), id, depth).(pc := pc))
    {
      ghost var s, lk := At(k, world), Value();
      repeat := n;
      ghost var now := Value();
      k.MoveToDepth(pc, id, depth);
      assert Value() == now;
      Wrote(world, s, At(k, world), id, lk, now, SetDepth(Me(s), id, depth).(pc := pc));
    }

    /** sync.c:59. */
    method CountAgain(k: Scheduler, ghost world: State) returns (v: Verdict)
      requires k.Valid()
      modifies `repeat, k`threads, k.structs
      ensures k.Valid() && Is(Locking.CountAgain(old(At(k, world)), id), v, At(k, world))
    {
      ghost var s := At(k, world);
      var cur := k.Current();
      Recount((repeat + 1) % U32, if cur.call.NoCall? then Client else IoSleep, Depth(Me(s), id) + 1, k, world);
      v := Fine;
    }

    /** sync.c:16. */
    method SemaDown(k: Scheduler, ghost world: State) returns (v: Verdict)
      requires k.Valid() && WaitersOk(k)
      modifies `value, `waiters, `owner, k`ready, k`running, k`intr, k`threads, k.structs
      ensures k.Valid() && WaitersOk(k) && Is(Locking.SemaDown(old(At(k, world)), id), v, At(k, world))
    {
      k.SaveFlag();
      var oldStatus := k.SetIntr(false);
      v := DownLoop(k, world);
    }

    /** sync.c:17-24, from one test of the value to the next or to the end. */
    method DownLoop(k: Scheduler, ghost world: State) returns (v: Verdict)
      requires k.Valid() && WaitersOk(k)
      modifies `value, `waiters, `owner, k`ready, k`running, k`intr, k`threads, k.structs
      ensures k.Valid() && WaitersOk(k) && Is(Locking.DownLoop(old(At(k, world)), id), v, At(k, world))
    {
      if value == 0 {
        v := Enqueue(k, world);
      } else {
        v := Take(k, world);
      }
    }

    /** sync.c:18-21. */
    method Enqueue(k: Scheduler, ghost world: State) returns (v: Verdict)
      requires k.Valid() && WaitersOk(k) && value == 0
      modifies `waiters, k`ready, k`running, k`intr, k`threads, k.structs
      ensures k.Valid() && WaitersOk(k) && Is(Locking.DownLoop(old(At(k, world)), id), v, At(k, world))
    {
      ghost var s, lk := At(k, world), Value();
      if k.running in waiters {
        return Failed(SyncC, 18);
      }
      assert k.Holds(Pointers);
      waiters := waiters + [k.running];
      ghost var queued := Value();
      k.MoveTo(Retest(id));
      Wrote(world, s, At(k, world), id, lk, queued, Me(s).(pc := Retest(id)));
      v := k.ThreadBlock(WithLock(world, id, queued));
    }

    /** sync.c:22-24. */
    method Take(k: Scheduler, ghost world: State) returns (v: Verdict)
      requires k.Valid() && value != 0
      modifies `value, `owner, k`intr, k`threads, k.structs
      ensures k.Valid() && Is(Locking.DownLoop(old(At(k, world)), id), v, At(k, world))
    {
      ghost var s, lk := At(k, world), Value();
      var oldStatus := k.Current().oldIf;
      value := value - 1;
      if value != 0 {
        return Failed(SyncC, 23);
      }
      owner := Some(k.running);
      ghost var taken := Value();
      k.MoveTo(Hold(id));
      Wrote(world, s, At(k, world), id, lk, taken, Me(s).(pc := Hold(id)));
      var off := k.SetIntr(oldStatus);
      v := Fine;
    }

    /** sync.c:55. */
    method TakeHold(k: Scheduler, ghost world: State) returns (v: Verdict)
      requires k.Valid()
      modifies `holder, k`threads, k.structs
      ensures k.Valid() && Is(Locking.TakeHold(old(At(k, world)), id), v, At(k, world))
    {
      ghost var lk := Value();
      holder := Some(k.running);
      k.MoveTo(Check(id));
      assert Value() == lk.(holder := Some(k.running));
      SetLkTwice(world.locks, id, lk, Value());
      v := Fine;
    }

    /** sync.c:56. */
    method CheckCount(k: Scheduler, ghost world: State) returns (v: Verdict)
      requires k.Valid()
      modifies k`threads, k.structs
      ensures k.Valid() && Is(Locking.CheckCount(old(At(k, world)), id), v, At(k, world))
    {
      if repeat != 0 {
        return Failed(SyncC, 56);
      }
      k.MoveTo(One(id));
      v := Fine;
    }

    /** sync.c:57. */
    method SetCount(k: Scheduler, ghost world: State) returns (v: Verdict)
      requires k.Valid()
      modifies `repeat, k`threads, k.structs
      ensures k.Valid() && Is(Locking.SetCount(old(At(k, world)), id), v, At(k, world))
    {
      ghost var s := At(k, world);
      var cur := k.Current();
      Recount(1, if cur.call.NoCall? then Client else IoSleep, Depth(Me(s), id) + 1, k, world);
      v := Fine;
    }

    /** sync.c:66. */
    method Release(k: Scheduler, ghost world: State) returns (v: Verdict)
      requires k.Valid()
      modifies k`threads, k.structs
      ensures k.Valid() && Is(Locking.Release(old(At(k, world)), id), v, At(k, world))
    {
      if holder != Some(k.running) {
        return Failed(SyncC, 66);
      }
      k.MoveTo(Many(id));
      v := Fine;
    }

    /** sync.c:67. */
    method TestCount(k: Scheduler, ghost world: State) returns (v: Verdict)
      requires k.Valid()
      modifies k`threads, k.structs
      ensures k.Valid() && Is(Locking.TestCount(old(At(k, world)), id), v, At(k, world))
    {
      k.MoveTo(if repeat > 1 then Less(id) else Last(id));
      v := Fine;
    }

    /** sync.c:68. */
    method CountLess(k: Scheduler, ghost world: State) returns (v: Verdict)
      requires k.Valid()
      modifies `repeat, k`threads, k.structs
      ensures k.Valid() && Is(Locking.CountLess(old(At(k, world)), id), v, At(k, world))
    {
      ghost var s := At(k, world);
      ghost var n := if Depth(Me(s), id) == 0 then 0 else Depth(Me(s), id) - 1;
      var cur := k.Current();
      Recount((repeat + U32 - 1) % U32, if cur.call.NoCall? then Client else IoTest, n, k, world);
      v := Fine;
    }

    /** sync.c:71. */
    method CheckLast(k: Scheduler, ghost world: State) returns (v: Verdict)
      requires k.Valid()
      modifies k`threads, k.structs
      ensures k.Valid() && Is(Locking.CheckLast(old(At(k, world)), id), v, At(k, world))
    {
      if repeat != 1 {
        return Failed(SyncC, 71);
      }
      k.MoveTo(Pc.Drop(id));
      v := Fine;
    }

    /** sync.c:72. */
    method DropHold(k: Scheduler, ghost world: State) returns (v: Verdict)
      requires k.Valid()
      modifies `holder, k`threads, k.structs
      ensures k.Valid() && Is(Locking.DropHold(old(At(k, world)), id), v, At(k, world))
    {
      ghost var lk := Value();
      holder := None;
      k.MoveToDepth(Zero(id), id, 0);
      assert Value() == lk.(holder := None);
      SetLkTwice(world.locks, id, lk, Value());
      v := Fine;
    }

    /** sync.c:73. */
    method ZeroCount(k: Scheduler, ghost world: State) returns (v: Verdict)
      requires k.Valid()
      modifies `repeat, k`threads, k.structs
      ensures k.Valid() && Is(Locking.ZeroCount(old(At(k, world)), id), v, At(k, world))
    {
      ghost var lk := Value();
      repeat := 0;
      k.MoveTo(Up(id));
      assert Value() == lk.(repeat := 0);
      SetLkTwice(world.locks, id, lk, Value());
      v := Fine;
    }

    /** sync.c:32-36. */
    method WakeFirst(k: Scheduler, ghost world: State) returns (v: Verdict)
      requires k.Valid() && WaitersOk(k) && waiters != []
      modifies `waiters, k`ready, k`threads, k.structs
      ensures k.Valid() && WaitersOk(k) && Value() == old(Value()).(waiters := old(waiters)[1..])
      ensures var popped := old(k.In(WithLock(world, id, Value().(waiters := waiters[1..]))));
        Is(Scheduling.ThreadUnblock(popped, old(waiters)[0]), v, At(k, world))
    {
      var t := waiters[0];
      waiters := waiters[1..];
      v := k.ThreadUnblock(t, WithLock(world, id, Value()));
    }

    /** sync.c:32-36, waiters or not. */
    method Wake(k: Scheduler, ghost world: State) returns (v: Verdict)
      requires k.Valid() && WaitersOk(k)
      modifies `waiters, k`ready, k`threads, k.structs
      ensures k.Valid() && WaitersOk(k) && Is(Locking.WakeWaiter(old(At(k, world)), id), v, At(k, world))
    {
      v := Fine;
      if waiters != [] {
        SetLkTwice(world.locks, id, Value(), Value().(waiters := waiters[1..]));
        v := WakeFirst(k, world);
      }
    }

    /** sync.c:29-39. */
    method SemaUp(k: Scheduler, ghost world: State) returns (v: Verdict)
      requires k.Valid() && WaitersOk(k)
      modifies `value, `waiters, `owner, k`ready, k`threads, k.structs
      ensures k.Valid() && WaitersOk(k) && Is(Locking.SemaUp(old(At(k, world)), id), v, At(k, world))
    {
      if value != 0 {
        return Failed(SyncC, 31);
      }
      v := Wake(k, world);
      if v.Fine? {
        v := Give(k, world);
      }
    }

    /** sync.c:37-39. */
    method Give(k: Scheduler, ghost world: State) returns (v: Verdict)
      requires k.Valid()
      modifies `value, `owner, k`threads, k.structs
      ensures k.Valid() && Is(Locking.SemaGive(old(At(k, world)), id), v, At(k, world))
    {
      ghost var s, lk := At(k, world), Value();
      var cur := k.Current();
      value := value + 1;
      if value != 1 {
        return Failed(SyncC, 38);
      }
      owner := None;
      k.MoveTo(if cur.call.NoCall? then Client else IoTest);
      Wrote(world, s, At(k, world), id, lk, Value(), Me(s).(pc := Locking.AfterRelease(Me(s))));
      assert Value() == lk.(value := 1, owner := None);
      v := Fine;
    }

    /** The running thread's next step inside lock_acquire. */
    method GoAcquire(k: Scheduler, ghost world: State) returns (v: Verdict)
      requires k.Valid() && WaitersOk(k)
      requires Th(k.threads, k.running).pc in {Again(id), Down(id), Retest(id), Hold(id), Check(id), One(id)}
      modifies this, k`ready, k`running, k`intr, k`threads, k.structs
      ensures k.Valid() && Is(KernelSystem.GoStep(old(At(k, world))), v, At(k, world))
    {
      Acquires(At(k, world), id);
      var cur := k.Current();
      match cur.pc
      case Again(_) => v := CountAgain(k, world);
      case Down(_) => v := SemaDown(k, world);
      case Retest(_) => v := DownLoop(k, world);
      case Hold(_) => v := TakeHold(k, world);
      case Check(_) => v := CheckCount(k, world);
      case One(_) => v := SetCount(k, world);
    }

    /** The running thread's next step in the first half of lock_release. */
    method GoRelease(k: Scheduler, ghost world: State) returns (v: Verdict)
      requires k.Valid() && WaitersOk(k)
      requires Th(k.threads, k.running).pc in {Many(id), Less(id), Last(id)}
      modifies this, k`ready, k`running, k`intr, k`threads, k.structs
      ensures k.Valid() && Is(KernelSystem.GoStep(old(At(k, world))), v, At(k, world))
    {
      Releases(At(k, world), id);
      var cur := k.Current();
      match cur.pc
      case Many(_) => v := TestCount(k, world);
      case Less(_) => v := CountLess(k, world);
      case Last(_) => v := CheckLast(k, world);
    }

    /** And in the second half, when the lock is given up. */
    method GoGiveUp(k: Scheduler, ghost world: State) returns (v: Verdict)
      requires k.Valid() && WaitersOk(k)
      requires Th(k.threads, k.running).pc in {Pc.Drop(id), Zero(id), Up(id)}
      modifies this, k`ready, k`running, k`intr, k`threads, k.structs
      ensures k.Valid() && Is(KernelSystem.GoStep(old(At(k, world))), v, At(k, world))
    {
      GivesUp(At(k, world), id);
      var cur := k.Current();
      match cur.pc
      case Drop(_) => v := DropHold(k, world);
      case Zero(_) => v := ZeroCount(k, world);
      case Up(_) => v := SemaUp(k, world);
    }

    /** The running thread's next step at this lock. */
    method Go(k: Scheduler, ghost world: State) returns (v: Verdict)
      requires k.Valid() && WaitersOk(k)
      requires AtLock(Th(k.threads, k.running).pc) && Th(k.threads, k.running).pc.l == id
      modifies this, k`ready, k`running, k`intr, k`threads, k.structs
      ensures k.Valid() && Is(KernelSystem.GoStep(old(At(k, world))), v, At(k, world))
    {
      var cur := k.Current();
      if cur.pc in {Again(id), Down(id), Retest(id), Hold(id), Check(id), One(id)} {
        v := GoAcquire(k, world);
      } else if cur.pc in {Many(id), Less(id), Last(id)} {
        v := GoRelease(k, world);
      } else {
        v := GoGiveUp(k, world);
      }
    }
  }
}
