/** Nobody's interrupt flag is changed by the kernel: a thread gets back the flag it had, whatever it
    called and however often it slept or was preempted meanwhile. */
module InterruptFlag {
  import opened Common
  import opened KernelState
  import opened Scheduling
  import opened Locking
  import opened IoQueues
  import opened KernelSystem
  import opened KernelInvariant
  import opened KernelSteps
  import opened KernelIo
  import opened KernelSafety
  import opened StepFrame

  /** The flag a thread has, is stored for it, or, inside sema_dowm, is to be given back at its end. */
  function OwnFlag(s: State, t: Tid): bool {
    if Th(s.threads, t).pc.Retest? then Th(s.threads, t).oldIf else Flag(s, t)
  }

  /** What thread t has asked for: the last value it passed to intr_set_status, or on, with which it
      was started, or what it was before. */
  function Asked(s: State, a: Action, t: Tid, was: bool): bool {
    match a
    case CallSetIntr(on) => if s.running == t then on else was
    case CallStart(u, _) => u == t || was
    case _ => was
  }

  function LastAsked(s: State, actions: seq<Action>, t: Tid, was: bool): bool
    decreases |actions|
  {
    if actions == [] then was else
    var now := Asked(s, actions[0], t, was);
    var o := Step(s, actions[0]);
    if o.Panic? then now else LastAsked(o.s, actions[1..], t, now)
  }

  // ----- one step

  lemma OthersFlag(s: State, s': State, t: Tid)
    requires Placement(s, true) && Placement(s', true) && Frame(s, s') && t != s.running
    ensures OwnFlag(s', t) == OwnFlag(s, t)
  {
    assert Spared(Th(s.threads, t), Th(s'.threads, t));
  }

  lemma StayFlag(s: State, s': State)
    requires Placement(s, true) && Placement(s', true) && Stays(s, s') && !Me(s).pc.Retest?
    ensures OwnFlag(s', s.running) == OwnFlag(s, s.running)
  {
    assert Th(s.threads, s.running).status == Running && Th(s'.threads, s.running).status == Running;
  }

  lemma SemaFlag(s: State, l: LockId)
    requires Inv(s, true) && (Me(s).pc == Down(l) || Me(s).pc == Retest(l))
    ensures GoStep(s).Next? && OwnFlag(GoStep(s).s, s.running) == OwnFlag(s, s.running)
  {
    GoKeeps(s);
    assert Me(s).status == Running && Th(GoStep(s).s.threads, GoStep(s).s.running).status == Running;
    if Lk(s.locks, l).value == 0 {
      BlockFrame(s, l);
    } else {
      TakeFrame(s, l);
    }
  }

  lemma SleepFlag(s: State)
    requires Inv(s, true) && Me(s).pc == IoSleep
    ensures GoStep(s).Next? && OwnFlag(GoStep(s).s, s.running) == OwnFlag(s, s.running)
  {
    GoKeeps(s);
    SleepFrame(s);
    assert Me(s).status == Running;
    assert Th(GoStep(s).s.threads, s.running).status == Blocked;
  }

  lemma TickFlag(s: State)
    requires Inv(s, true) && s.intr
    ensures ClockTick(s).Next? && OwnFlag(ClockTick(s).s, s.running) == OwnFlag(s, s.running)
  {
    TickKeeps(s);
    TickFrame(s);
    assert LocalOk(Me(s), Flag(s, s.running));
    assert Me(s).status == Running;
    assert Th(ClockTick(s).s.threads, s.running).status == Running <==> ClockTick(s).s.running == s.running;
  }

  lemma GoFlag(s: State)
    requires Inv(s, true) && Me(s).pc != Client
    ensures GoStep(s).Next? && OwnFlag(GoStep(s).s, s.running) == OwnFlag(s, s.running)
  {
    GoKeeps(s);
    match Me(s).pc
    case Down(l) => SemaFlag(s, l);
    case Retest(l) => SemaFlag(s, l);
    case IoSleep => SleepFlag(s);
    case _ =>
      OtherFlag(s);
  }

  lemma OtherFlag(s: State)
    requires Inv(s, true) && Me(s).pc != Client && !Me(s).pc.Down? && !Me(s).pc.Retest? && Me(s).pc != IoSleep
    ensures GoStep(s).Next? && OwnFlag(GoStep(s).s, s.running) == OwnFlag(s, s.running)
  {
    GoKeeps(s);
    GoStays(s);
    StayFlag(s, GoStep(s).s);
  }

  lemma SameFlag(s: State, s': State, a: Action)
    requires Inv(s, true) && Inv(s', true) && Step(s, a) == Next(s')
    requires a.CallAcquire? || a.CallRelease? || a.CallSetIntr?
    requires Me(s).pc == Client
    ensures OwnFlag(s', s.running) == if a.CallSetIntr? then a.on else OwnFlag(s, s.running)
  {
    DirectFrame(s, a);
    assert Me(s).status == Running && Th(s'.threads, s.running).status == Running;
  }

  /** A step changes nobody's flag but that of the thread that sets its own or is started. */
  lemma StepFlag(s: State, a: Action, t: Tid)
    requires Inv(s, true) && Enabled(s, a) && Legal(s, a)
    ensures Step(s, a).Next? && OwnFlag(Step(s, a).s, t) == Asked(s, a, t, OwnFlag(s, t))
  {
    StepKeeps(s, a);
    var s' := Step(s, a).s;
    if a.CallStart? {
      StartMakes(s, a.t, a.priority);
    } else if t != s.running {
      StepSpares(s, a);
      OthersFlag(s, s', t);
    } else {
      MyFlag(s, a);
    }
  }

  lemma MyFlag(s: State, a: Action)
    requires Inv(s, true) && Enabled(s, a) && Legal(s, a) && !a.CallStart?
    ensures Step(s, a).Next? && OwnFlag(Step(s, a).s, s.running) == Asked(s, a, s.running, OwnFlag(s, s.running))
  {
    StepKeeps(s, a);
    var s' := Step(s, a).s;
    assert LocalOk(Me(s), Flag(s, s.running));
    match a
    case Go => GoFlag(s);
    case Tick => TickFlag(s);
    case Key(q, byte) =>
      KeyFrame(s, q, byte);
      assert Me(s).status == Running;
      StayFlag(s, s');
    case CallGet(q) => CallFlag(s, GetChar(q));
    case CallPut(q, byte) => CallFlag(s, PutChar(q, byte));
    case _ => SameFlag(s, s', a);
  }

  lemma CallFlag(s: State, call: Call)
    requires Inv(s, true) && Me(s).pc == Client && CallTest(Entered(s, call)).Next?
    requires Placement(CallTest(Entered(s, call)).s, true)
    ensures OwnFlag(CallTest(Entered(s, call)).s, s.running) == OwnFlag(s, s.running)
  {
    TestFrame(Entered(s, call));
    StayFlag(s, CallTest(Entered(s, call)).s);
  }

  // ----- whole runs

  lemma {:induction false} RunFlag(s: State, actions: seq<Action>, t: Tid)
    requires Inv(s, true) && Obeys(s, actions)
    ensures Run(s, actions).Next?
    ensures OwnFlag(Run(s, actions).s, t) == LastAsked(s, actions, t, OwnFlag(s, t))
    decreases |actions|
  {
    if actions != [] {
      StepKeeps(s, actions[0]);
      StepFlag(s, actions[0], t);
      RunFlag(Step(s, actions[0]).s, actions[1..], t);
    }
  }

  /** In every reachable state a thread's flag is the one it last asked for: off for main and on for
      any other thread that never asked. */
  lemma FlagIsAsked(actions: seq<Action>, t: Tid)
    requires Obeys(BOOT, actions)
    ensures Run(BOOT, actions).Next?
    ensures OwnFlag(Run(BOOT, actions).s, t) == LastAsked(BOOT, actions, t, false)
  {
    BootOk();
    RunFlag(BOOT, actions, t);
  }

  /** Thread t sets no flag in this run, and is not started in it. */
  predicate AsksNothing(s: State, actions: seq<Action>, t: Tid)
    decreases |actions|
  {
    actions == [] ||
    (!(actions[0].CallSetIntr? && s.running == t) && !(actions[0].CallStart? && actions[0].t == t) &&
     (Step(s, actions[0]).Next? ==> AsksNothing(Step(s, actions[0]).s, actions[1..], t)))
  }

  lemma {:induction false} NothingAsked(s: State, actions: seq<Action>, t: Tid, was: bool)
    requires AsksNothing(s, actions, t)
    ensures LastAsked(s, actions, t, was) == was
    decreases |actions|
  {
    if actions != [] && Step(s, actions[0]).Next? {
      NothingAsked(Step(s, actions[0]).s, actions[1..], t, was);
    }
  }

  /** Between any two moments at which a thread is outside the kernel's code it keeps its flag, unless
      it sets it itself: lock_acquire, lock_release and the queue calls give back the flag they found,
      across every sleep and preemption. */
  lemma CallsGiveFlagBack(s: State, actions: seq<Action>, t: Tid)
    requires Reachable(s) && Obeys(s, actions) && AsksNothing(s, actions, t) && Th(s.threads, t).pc == Client
    ensures Run(s, actions).Next?
    ensures Th(Run(s, actions).s.threads, t).pc == Client ==> Flag(Run(s, actions).s, t) == Flag(s, t)
  {
    ReachableInv(s);
    RunFlag(s, actions, t);
    NothingAsked(s, actions, t, OwnFlag(s, t));
  }
}
