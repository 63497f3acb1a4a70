/** The step system: what can happen next, and whole runs. */
module KernelSystem {
  import opened Common
  import opened KernelState
  import opened Scheduling
  import opened Locking
  import opened IoQueues

  datatype Action =
    | Go                                // the running thread's next step inside kernel code
    | CallAcquire(l: nat)               // the running thread calls lock_acquire, ...
    | CallRelease(l: nat)               // ... lock_release, ...
    | CallGet(q: nat)                   // ... ioq_getchar, ...
    | CallPut(q: nat, byte: char)       // ... ioq_putchar, ...
    | CallSetIntr(on: bool)             // ... intr_set_status, ...
    | CallStart(t: Tid, priority: nat)  // ... process_execute
    | Tick                              // clock interrupt
    | Key(q: nat, byte: char)           // keyboard interrupt

  predicate MayLock(s: State) {
    s.running == MAIN ==> s.booting
  }

  /** Who can do what when. Interrupts arrive only while the flag is on, a call is made only
      from client code; main locks only until it enables interrupts (main.c:20-41, where
      process_execute allocates pages), and never reads or writes a queue (main.c:43). */
  predicate Enabled(s: State, a: Action) {
    match a
    case Go => Me(s).pc != Client
    case Tick => s.intr
    case Key(_, _) => s.intr
    case CallSetIntr(_) => Me(s).pc == Client
    case CallStart(t, priority) =>
      Me(s).pc == Client && t !in s.threads && priority < 256
    case CallAcquire(_) => Me(s).pc == Client && MayLock(s)
    case CallRelease(_) => Me(s).pc == Client && MayLock(s)
    case _ => Me(s).pc == Client && s.running != MAIN
  }

  /** What the code demands of its callers: release only what you hold, call the queue with
      interrupts off, do not nest a lock 2^32 times. */
  predicate Legal(s: State, a: Action) {
    match a
    case CallAcquire(l) => Depth(Me(s), Plain(l)) + 1 < U32
    case CallRelease(l) => Depth(Me(s), Plain(l)) > 0
    case CallGet(_) => !s.intr
    case CallPut(_, _) => !s.intr
    case _ => true
  }

  function GoStep(s: State): Outcome {
    match Me(s).pc
    case Client => Next(s)
    case Again(l) => CountAgain(s, l)
    case Down(l) => SemaDown(s, l)
    case Retest(l) => DownLoop(s, l)
    case Hold(l) => TakeHold(s, l)
    case Check(l) => CheckCount(s, l)
    case One(l) => SetCount(s, l)
    case Many(l) => TestCount(s, l)
    case Less(l) => CountLess(s, l)
    case Last(l) => CheckLast(s, l)
    case Drop(l) => DropHold(s, l)
    case Zero(l) => ZeroCount(s, l)
    case Up(l) => SemaUp(s, l)
    case IoTest => CallTest(s)
    case IoSleep => IoWait(s)
    case IoSlept => IoResume(s)
  }

  function Step(s: State, a: Action): Outcome {
    match a
    case Go => GoStep(s)
    case CallAcquire(l) => TestHolder(s, Plain(l))
    case CallRelease(l) => Release(s, Plain(l))
    case CallGet(q) => GetTest(SetMe(s, Me(s).(pc := IoTest, call := GetChar(q))), q)
    case CallPut(q, byte) => PutTest(SetMe(s, Me(s).(pc := IoTest, call := PutChar(q, byte))), q, byte)
    case CallSetIntr(on) => Next(s.(intr := on, booting := s.booting && !on))
    case CallStart(t, priority) => Spawn(s, t, priority)
    case Tick => ClockTick(s)
    case Key(q, byte) => KeyPress(s, q, byte)
  }

  /** Boot: only main exists, interrupts are off. */
  const BOOT := State(map[MAIN := Thread(Running, true, false, Client, NoCall, map[], 31, 31)],
                      map[], map[], [], MAIN, false, true)

  function Run(s: State, actions: seq<Action>): Outcome
    decreases |actions|
  {
    if actions == [] then Next(s) else
    var o := Step(s, actions[0]);
    if o.Panic? then o else Run(o.s, actions[1..])
  }

  /** Every action of the run is possible where it happens and keeps the callers' rules. */
  predicate Obeys(s: State, actions: seq<Action>)
    decreases |actions|
  {
    actions == [] ||
    (Enabled(s, actions[0]) && Legal(s, actions[0]) &&
     (Step(s, actions[0]).Next? ==> Obeys(Step(s, actions[0]).s, actions[1..])))
  }
}
