/** thread.c and timer.c: thread states, the ready list and dispatch. */
module Scheduling {
  import opened KernelState

  /** thread.c:98-106: pop the ready list and switch to what was popped. */
  function Dispatch(s: State): Outcome {
    if s.ready == [] then Panic(ThreadC, 98) else
    var n := s.ready[0];
    var next := Th(s.threads, n).(status := Running);
    Next(s.(threads := SetTh(s.threads, n, next), ready := s.ready[1..], running := n, intr := next.savedIf))
  }

  /** thread.c:87-107, called with interrupts off; the flag the running thread gets back
      when it is dispatched again is already in its `savedIf`. */
  function Schedule(s: State): Outcome {
    if Me(s).status == Running then
      if s.running in s.ready then Panic(ThreadC, 91) else
      var queued := SetMe(s, Me(s).(status := Ready, ticks := Me(s).priority));
      Dispatch(queued.(ready := s.ready + [s.running]))
    else
      Dispatch(s)
  }

  /** thread.c:119-127 with TASK_BLOCKED, the only status the kernel passes. */
  function ThreadBlock(s: State): Outcome {
    Schedule(SetMe(s, Me(s).(status := Blocked, savedIf := s.intr)))
  }

  /** thread.c:131-142. */
  function ThreadUnblock(s: State, t: Tid): Outcome {
    if Th(s.threads, t).status != Blocked then Panic(ThreadC, 134) else
    if t in s.ready then Panic(ThreadC, 137) else
    Next(s.(threads := SetTh(s.threads, t, Th(s.threads, t).(status := Ready)), ready := [t] + s.ready))
  }

  /** thread.c:34-48 and process.c:103-108: a new thread enters the ready list. It first runs
      with interrupts enabled (thread.c:30). */
  function Spawn(s: State, t: Tid, priority: nat): Outcome {
    if t in s.ready then Panic(ProcessC, 104) else
    var th := Thread(Ready, true, false, Client, NoCall, map[], priority, priority);
    Next(s.(threads := SetTh(s.threads, t, th), ready := s.ready + [t]))
  }

  /** timer.c:23-32: the clock interrupt. The handler runs with interrupts off and the
      interrupted thread had them on. */
  function ClockTick(s: State): Outcome {
    if Me(s).ticks == 0 then
      Schedule(SetMe(s, Me(s).(savedIf := s.intr)))
    else
      Next(SetMe(s, Me(s).(ticks := Me(s).ticks - 1)))
  }
}
