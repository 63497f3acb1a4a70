/** What goes into a bounded queue and what comes out, read off the key presses and calls of a run. */
module QueueTraffic {
  import opened Common
  import opened KernelState
  import opened Scheduling
  import opened Locking
  import opened IoQueues
  import opened KernelSystem
  import opened KernelInvariant
  import opened KernelSteps
  import opened KernelIo
  import opened KernelSafety
  import opened ReaderProgress
  import opened StepFrame

  /** The queue call whose loop condition is tested in this step, if any. */
  function Tested(s: State, a: Action): Call {
    match a
    case Go => if Me(s).pc == IoTest then Me(s).call else NoCall
    case CallGet(q) => GetChar(q)
    case CallPut(q, byte) => PutChar(q, byte)
    case _ => NoCall
  }

  /** A put goes on with fewer than 63 bytes in the queue, a get with any. */
  predicate Passes(s: State, call: Call) {
    match call
    case NoCall => false
    case GetChar(q) => Pending(Qu(s.queues, q)) != []
    case PutChar(q, _) => |Pending(Qu(s.queues, q))| < 63
  }

  /** The byte that enters queue q in this step. */
  function Entering(s: State, a: Action, q: nat): seq<char> {
    match a
    case Key(k, byte) => if k == q && |Pending(Qu(s.queues, q))| < 63 then [byte] else []
    case _ =>
      var call := Tested(s, a);
      if call.PutChar? && call.q == q && Passes(s, call) then [call.byte] else []
  }

  /** The byte that leaves queue q in this step: the oldest. */
  function Leaving(s: State, a: Action, q: nat): seq<char> {
    var call := Tested(s, a);
    if call == GetChar(q) && Passes(s, call) then [Pending(Qu(s.queues, q))[0]] else []
  }

  /** Whoever sleeps in the slot is READY and next to run; nobody else is woken. */
  predicate Wakes(s: State, s': State, slot: Option<Tid>) {
    if slot == None then s'.ready == s.ready
    else Th(s'.threads, slot.value).status == Ready && s'.ready == [slot.value] + s.ready
  }

  // ----- the ring

  lemma RingSize(qu: Queue)
    ensures Full(qu) <==> |Pending(qu)| == 63
    ensures Empty(qu) <==> Pending(qu) == []
    ensures |Pending(qu)| <= 63
    ensures !Empty(qu) ==> Pending(qu)[0] == qu.buf[qu.tail]
  {
  }

  // ----- one byte in or out

  /** One byte has entered queue q, and whoever slept for it is woken. */
  ghost predicate Came(s: State, s': State, q: nat, byte: char) {
    var qu, qu' := Qu(s.queues, q), Qu(s'.queues, q);
    && qu'.written == qu.written + [byte] && qu'.read == qu.read
    && qu'.consumer == None && qu'.producer == qu.producer && Wakes(s, s', qu.consumer)
    && s'.locks == s.locks && forall k: nat :: k != q ==> Qu(s'.queues, k) == Qu(s.queues, k)
  }

  /** The oldest byte has left queue q, and whoever slept for room is woken. */
  ghost predicate Went(s: State, s': State, q: nat) {
    var qu, qu' := Qu(s.queues, q), Qu(s'.queues, q);
    && Pending(qu) != [] && qu'.read == qu.read + [Pending(qu)[0]] && qu'.written == qu.written
    && qu'.producer == None && qu'.consumer == qu.consumer && Wakes(s, s', qu.producer)
    && s'.locks == s.locks && forall k: nat :: k != q ==> Qu(s'.queues, k) == Qu(s.queues, k)
  }

  lemma PutWakes(s: State, q: nat)
    requires WakeConsumer(s, q).Next?
    ensures var s' := WakeConsumer(s, q).s;
      && Wakes(s, s', Qu(s.queues, q).consumer)
      && s' == s.(threads := s'.threads, queues := s'.queues, ready := s'.ready)
      && (forall k: nat ::
            Qu(s'.queues, k) == if k == q then Qu(s.queues, q).(consumer := None) else Qu(s.queues, k))
      && (Qu(s.queues, q).consumer == Some(s.running) || Me(s') == Me(s))
  {
  }

  lemma GetWakes(s: State, q: nat)
    requires WakeProducer(s, q).Next?
    ensures var s' := WakeProducer(s, q).s;
      && Wakes(s, s', Qu(s.queues, q).producer)
      && s' == s.(threads := s'.threads, queues := s'.queues, ready := s'.ready)
      && (forall k: nat ::
            Qu(s'.queues, k) == if k == q then Qu(s.queues, q).(producer := None) else Qu(s.queues, k))
      && (Qu(s.queues, q).producer == Some(s.running) || Me(s') == Me(s))
  {
  }

  lemma NotInSlot(s: State, q: nat)
    requires Placement(s, true)
    ensures Qu(s.queues, q).consumer != Some(s.running) && Qu(s.queues, q).producer != Some(s.running)
  {
    assert Th(s.threads, s.running).status == Running;
    assert !ReaderAsleep(Th(s.threads, s.running), q) && !WriterAsleep(Th(s.threads, s.running), q);
  }

  /** What the loop condition of a put decides. */
  lemma PutTested(s: State, q: nat, byte: char)
    requires Placement(s, true) && !s.intr && PutTest(s, q, byte).Next?
    ensures var s' := PutTest(s, q, byte).s;
      if |Pending(Qu(s.queues, q))| < 63 then Came(s, s', q, byte) && Me(s') == Me(s).(pc := Client, call := NoCall)
      else s'.queues == s.queues && AtLock(Me(s').pc) && Me(s').call == Me(s).call
    ensures PutTest(s, q, byte).s.running == s.running
  {
    RingSize(Qu(s.queues, q));
    NotInSlot(s, q);
    if !Full(Qu(s.queues, q)) {
      PutWakes(SetMe(WithQueue(s, q, AddByte(Qu(s.queues, q), byte)), Me(s).(pc := Client, call := NoCall)), q);
    }
  }

  lemma GetTested(s: State, q: nat)
    requires Placement(s, true) && !s.intr && GetTest(s, q).Next?
    ensures var s' := GetTest(s, q).s;
      if Pending(Qu(s.queues, q)) != [] then Went(s, s', q) && Me(s') == Me(s).(pc := Client, call := NoCall)
      else s'.queues == s.queues && AtLock(Me(s').pc) && Me(s').call == Me(s).call
    ensures GetTest(s, q).s.running == s.running
  {
    RingSize(Qu(s.queues, q));
    NotInSlot(s, q);
    if !Empty(Qu(s.queues, q)) {
      GetWakes(SetMe(WithQueue(s, q, TakeByte(Qu(s.queues, q))), Me(s).(pc := Client, call := NoCall)), q);
    }
  }

  /** A key press puts exactly its byte into its queue, when fewer than 63 are there, behind the others
      and wakes its reader; otherwise it changes nothing. */
  lemma KeyEnters(s: State, q: nat, byte: char)
    requires Inv(s, true)
    ensures Step(s, Key(q, byte)).Next?
    ensures var s' := Step(s, Key(q, byte)).s;
      if |Pending(Qu(s.queues, q))| < 63 then
        Enters(s, s', q, byte) && Me(s') == Me(s)
      else s' == s
  {
    KeyPressKeeps(s, q, byte);
    KeyTested(s, q, byte);
    if |Pending(Qu(s.queues, q))| < 63 {
      PendingCame(s, KeyPress(s, q, byte).s, q, byte);
    }
  }

  lemma KeyTested(s: State, q: nat, byte: char)
    requires Placement(s, true) && KeyPress(s, q, byte).Next?
    ensures var s' := KeyPress(s, q, byte).s;
      if |Pending(Qu(s.queues, q))| < 63 then Came(s, s', q, byte) && Me(s') == Me(s) && s'.running == s.running
      else s' == s
  {
    RingSize(Qu(s.queues, q));
    NotInSlot(s, q);
    if !Full(Qu(s.queues, q)) {
      PutWakes(WithQueue(s, q, AddByte(Qu(s.queues, q), byte)), q);
    }
  }

  /** The ring itself has the byte, behind the others; the record of what was written is no help to a
      ring that does not. */
  lemma PendingCame(s: State, s': State, q: nat, byte: char)
    requires RingOk(Qu(s.queues, q)) && RingOk(Qu(s'.queues, q)) && Came(s, s', q, byte)
    ensures Pending(Qu(s'.queues, q)) == Pending(Qu(s.queues, q)) + [byte]
  {
    var qu, qu' := Qu(s.queues, q), Qu(s'.queues, q);
    assert qu.read + (Pending(qu) + [byte]) == qu'.read + Pending(qu');
    assert (qu.read + Pending(qu'))[|qu.read|..] == Pending(qu');
    assert (qu.read + (Pending(qu) + [byte]))[|qu.read|..] == Pending(qu) + [byte];
  }

  lemma PendingWent(s: State, s': State, q: nat)
    requires RingOk(Qu(s.queues, q)) && RingOk(Qu(s'.queues, q)) && Went(s, s', q)
    ensures Pending(Qu(s.queues, q)) == [Pending(Qu(s.queues, q))[0]] + Pending(Qu(s'.queues, q))
  {
    var qu, qu' := Qu(s.queues, q), Qu(s'.queues, q);
    var first := [Pending(qu)[0]];
    assert qu.read + Pending(qu) == qu.read + (first + Pending(qu'));
    assert (qu.read + Pending(qu))[|qu.read|..] == Pending(qu);
    assert (qu.read + (first + Pending(qu')))[|qu.read|..] == first + Pending(qu');
  }

  /** A queue call returns when its loop condition lets it pass, having put its byte behind the others or
      taken the oldest, and having woken whoever slept for that; otherwise it goes for the queue's lock. */
  lemma CallMoves(s: State, a: Action)
    requires Inv(s, true) && Enabled(s, a) && Legal(s, a) && Tested(s, a) != NoCall
    ensures Step(s, a).Next? && Decided(s, Step(s, a).s, Tested(s, a))
  {
    StepKeeps(s, a);
    match a
    case Go => GoMoves(s);
    case CallGet(q) => EnteredMoves(s, GetChar(q));
    case CallPut(q, byte) => EnteredMoves(s, PutChar(q, byte));
  }

  lemma GoMoves(s: State)
    requires Inv(s, true) && Me(s).pc == IoTest && GoStep(s).Next? && Rings(GoStep(s).s)
    ensures Me(s).call != NoCall && Decided(s, GoStep(s).s, Me(s).call)
  {
    assert LocalOk(Me(s), Flag(s, s.running));
    assert Me(s).status == Running;
    TestMoves(s);
  }

  ghost predicate Decided(s: State, s': State, call: Call)
    requires call != NoCall
  {
    && s'.running == s.running
    && if !Passes(s, call) then s'.queues == s.queues && AtLock(Me(s').pc) && Me(s').call == call
       else Me(s').pc == Client && if call.PutChar? then Enters(s, s', call.q, call.byte) else Leaves(s, s', call.q)
  }

  ghost predicate Enters(s: State, s': State, q: nat, byte: char) {
    Came(s, s', q, byte) && Pending(Qu(s'.queues, q)) == Pending(Qu(s.queues, q)) + [byte]
  }

  ghost predicate Leaves(s: State, s': State, q: nat) {
    Went(s, s', q) && Pending(Qu(s.queues, q)) == [Pending(Qu(s.queues, q))[0]] + Pending(Qu(s'.queues, q))
  }

  lemma TestMoves(s: State)
    requires Placement(s, true) && !s.intr && Rings(s) && CallTest(s).Next? && Rings(CallTest(s).s)
    requires Me(s).call != NoCall
    ensures Decided(s, CallTest(s).s, Me(s).call)
  {
    match Me(s).call
    case GetChar(q) =>
      GetTested(s, q);
      if Passes(s, Me(s).call) { PendingWent(s, CallTest(s).s, q); }
    case PutChar(q, byte) =>
      PutTested(s, q, byte);
      if Passes(s, Me(s).call) { PendingCame(s, CallTest(s).s, q, byte); }
  }

  lemma EnteredMoves(s: State, call: Call)
    requires Inv(s, true) && Me(s).pc == Client && s.running != MAIN && !s.intr && call != NoCall
    requires CallTest(Entered(s, call)).Next? && Rings(CallTest(Entered(s, call)).s)
    ensures Decided(s, CallTest(Entered(s, call)).s, call)
  {
    EnterCallKeeps(s, call);
    TestMoves(Entered(s, call));
    FromEntered(s, Entered(s, call), CallTest(Entered(s, call)).s, call);
  }

  lemma FromEntered(s: State, s1: State, s': State, call: Call)
    requires call != NoCall && Decided(s1, s', call) && s1 == s.(threads := s1.threads)
    ensures Decided(s, s', call)
  {
  }

  // ----- every step

  /** A queue's bytes in and out. */
  ghost predicate Traffic(s: State, s': State, q: nat, came: seq<char>, went: seq<char>) {
    && Qu(s'.queues, q).written == Qu(s.queues, q).written + came
    && Qu(s'.queues, q).read == Qu(s.queues, q).read + went
  }

  /** A sleeping reader leaves its slot when a byte comes, and only then; a sleeping writer when one goes. */
  ghost predicate SlotsFollow(s: State, s': State, q: nat, came: seq<char>, went: seq<char>) {
    var qu, qu' := Qu(s.queues, q), Qu(s'.queues, q);
    && (qu.consumer.Some? ==> qu'.consumer == if came == [] then qu.consumer else None)
    && (qu.producer.Some? ==> qu'.producer == if went == [] then qu.producer else None)
  }

  ghost predicate Flow(s: State, s': State, q: nat, came: seq<char>, went: seq<char>) {
    Traffic(s, s', q, came, went) && SlotsFollow(s, s', q, came, went)
  }

  lemma SameFlow(s: State, s': State, q: nat)
    requires Qu(s'.queues, q) == Qu(s.queues, q)
    ensures Flow(s, s', q, [], [])
  {
  }

  /** A step that tests no loop condition and is no key press leaves the bytes and the call alone. */
  lemma GoTraffic(s: State, q: nat)
    requires Inv(s, true) && Me(s).pc != Client && Me(s).pc != IoTest
    ensures GoStep(s).Next? && Flow(s, GoStep(s).s, q, [], [])
    ensures Th(GoStep(s).s.threads, s.running).call == Me(s).call
  {
    GoKeeps(s);
    assert LocalOk(Me(s), Flag(s, s.running));
    if AtLock(Me(s).pc) {
      LockGoAside(s, q);
      SameFlow(s, GoStep(s).s, q);
    } else if Me(s).pc == IoSleep {
      SleepTraffic(s, q);
    } else {
      ResumeTraffic(s, q);
    }
  }

  lemma SleepTraffic(s: State, q: nat)
    requires Inv(s, true) && Me(s).pc == IoSleep
    ensures GoStep(s).Next? && Flow(s, GoStep(s).s, q, [], [])
    ensures Th(GoStep(s).s.threads, s.running).call == Me(s).call
  {
    SleepFrame(s);
    SlotsFree(s);
    IoWaitIs(s);
    AsleepTraffic(s, q);
  }

  lemma AsleepTraffic(s: State, q: nat)
    requires Me(s).call != NoCall && Dispatch(Asleep(s)).Next?
    requires Qu(s.queues, Me(s).call.q).consumer == None && Qu(s.queues, Me(s).call.q).producer == None
    ensures Flow(s, Dispatch(Asleep(s)).s, q, [], []) && Me(Asleep(s)).call == Me(s).call
  {
  }

  lemma ResumeTraffic(s: State, q: nat)
    requires Me(s).pc == IoSlept && GoStep(s).Next?
    ensures Flow(s, GoStep(s).s, q, [], []) && Me(GoStep(s).s).call == Me(s).call
    ensures GoStep(s).s.running == s.running
  {
  }

  lemma TestTraffic(s: State, q: nat)
    requires Placement(s, true) && !s.intr && CallTest(s).Next? && Me(s).call != NoCall
    ensures Flow(s, CallTest(s).s, q,
      if Me(s).call.PutChar? && Me(s).call.q == q && Passes(s, Me(s).call) then [Me(s).call.byte] else [],
      if Me(s).call == GetChar(q) && Passes(s, Me(s).call) then [Pending(Qu(s.queues, q))[0]] else [])
    ensures Me(CallTest(s).s).call == (if Passes(s, Me(s).call) then NoCall else Me(s).call)
    ensures Me(CallTest(s).s).pc == Client <==> Passes(s, Me(s).call)
    ensures CallTest(s).s.running == s.running
  {
    match Me(s).call
    case GetChar(k) => GetTested(s, k);
    case PutChar(k, byte) => PutTested(s, k, byte);
  }

  /** Exactly the bytes of the action enter and leave. */
  lemma StepTraffic(s: State, a: Action, q: nat)
    requires Inv(s, true) && Enabled(s, a) && Legal(s, a)
    ensures Step(s, a).Next? && Flow(s, Step(s, a).s, q, Entering(s, a, q), Leaving(s, a, q))
    ensures Th(Step(s, a).s.threads, s.running).call ==
      if Tested(s, a) == NoCall then Me(s).call else if Passes(s, Tested(s, a)) then NoCall else Tested(s, a)
  {
    StepKeeps(s, a);
    match a
    case Go => AnyGoTraffic(s, q);
    case CallGet(k) => EnteredTraffic(s, GetChar(k), q);
    case CallPut(k, byte) => EnteredTraffic(s, PutChar(k, byte), q);
    case Key(k, byte) => KeyTraffic(s, k, byte, q);
    case Tick => TickTraffic(s, q);
    case CallStart(t, _) =>
      assert Me(s).status == Running;
      OtherTraffic(s, a, q);
    case _ => OtherTraffic(s, a, q);
  }

  lemma AnyGoTraffic(s: State, q: nat)
    requires Inv(s, true) && Me(s).pc != Client
    ensures GoStep(s).Next? && Flow(s, GoStep(s).s, q, Entering(s, Go, q), Leaving(s, Go, q))
    ensures Th(GoStep(s).s.threads, s.running).call ==
      if Tested(s, Go) == NoCall then Me(s).call else if Passes(s, Tested(s, Go)) then NoCall else Tested(s, Go)
  {
    GoKeeps(s);
    assert LocalOk(Me(s), Flag(s, s.running));
    assert Me(s).status == Running;
    if Me(s).pc == IoTest {
      TestTraffic(s, q);
    } else {
      GoTraffic(s, q);
    }
  }

  lemma KeyTraffic(s: State, k: nat, byte: char, q: nat)
    requires Placement(s, true) && KeyPress(s, k, byte).Next?
    ensures Flow(s, KeyPress(s, k, byte).s, q, Entering(s, Key(k, byte), q), [])
    ensures Th(KeyPress(s, k, byte).s.threads, s.running).call == Me(s).call
  {
    KeyTested(s, k, byte);
  }

  lemma TickTraffic(s: State, q: nat)
    requires ClockTick(s).Next?
    ensures Flow(s, ClockTick(s).s, q, [], []) && Th(ClockTick(s).s.threads, s.running).call == Me(s).call
  {
    if Me(s).ticks == 0 {
      ScheduleAside(SetMe(s, Me(s).(savedIf := s.intr)), q);
    }
    SameFlow(s, ClockTick(s).s, q);
  }

  lemma EnteredTraffic(s: State, call: Call, q: nat)
    requires Inv(s, true) && !s.intr && call != NoCall && CallTest(Entered(s, call)).Next? && Me(s).pc == Client
    requires s.running != MAIN
    ensures var s' := CallTest(Entered(s, call)).s;
      && Flow(s, s', q,
           if call.PutChar? && call.q == q && Passes(s, call) then [call.byte] else [],
           if call == GetChar(q) && Passes(s, call) then [Pending(Qu(s.queues, q))[0]] else [])
      && Th(s'.threads, s.running).call == (if Passes(s, call) then NoCall else call)
  {
    EnterCallKeeps(s, call);
    TestTraffic(Entered(s, call), q);
  }

  lemma OtherTraffic(s: State, a: Action, q: nat)
    requires a.CallAcquire? || a.CallRelease? || a.CallSetIntr? || (a.CallStart? && a.t != s.running)
    requires Step(s, a).Next?
    ensures Flow(s, Step(s, a).s, q, [], []) && Th(Step(s, a).s.threads, s.running).call == Me(s).call
  {
  }

  // ----- whole runs

  /** The queue calls threads have made and not returned from, as far as the actions tell. */
  type Open = map<Tid, Call>

  function Called(s: State, a: Action, open: Open): Open {
    match a
    case CallGet(q) => open[s.running := GetChar(q)]
    case CallPut(q, byte) => open[s.running := PutChar(q, byte)]
    case _ => open
  }

  /** The running thread is back from its queue call. */
  predicate Back(s: State, s': State, open: Open) {
    s.running in open && Th(s'.threads, s.running).pc == Client
  }

  function After(s: State, a: Action, s': State, open: Open): Open {
    var called := Called(s, a, open);
    if Back(s, s', called) then called - {s.running} else called
  }

  /** The bytes a run puts into q, in order: those of the key presses that find fewer than 63 bytes there,
      and those of the calls of ioq_putchar that return, each when it returns. */
  function Accepted(s: State, actions: seq<Action>, q: nat, open: Open): seq<char>
    decreases |actions|
  {
    if actions == [] then [] else
    var a, o := actions[0], Step(s, actions[0]);
    if o.Panic? then [] else
    AcceptedNow(s, a, o.s, q, Called(s, a, open)) + Accepted(o.s, actions[1..], q, After(s, a, o.s, open))
  }

  function AcceptedNow(s: State, a: Action, s': State, q: nat, called: Open): seq<char> {
    match a
    case Key(k, byte) => if k == q && |Pending(Qu(s.queues, q))| < 63 then [byte] else []
    case _ =>
      if Back(s, s', called) && called[s.running].PutChar? && called[s.running].q == q then [called[s.running].byte]
      else []
  }

  function Oldest(qu: Queue): seq<char> {
    if Pending(qu) == [] then [] else [Pending(qu)[0]]
  }

  /** The bytes the calls of ioq_getchar(q) in a run return with: each the oldest there. */
  function Returned(s: State, actions: seq<Action>, q: nat, open: Open): seq<char>
    decreases |actions|
  {
    if actions == [] then [] else
    var a, o := actions[0], Step(s, actions[0]);
    if o.Panic? then [] else
    ReturnedNow(s, o.s, q, Called(s, a, open)) + Returned(o.s, actions[1..], q, After(s, a, o.s, open))
  }

  function ReturnedNow(s: State, s': State, q: nat, called: Open): seq<char> {
    if Back(s, s', called) && called[s.running] == GetChar(q) then Oldest(Qu(s.queues, q)) else []
  }

  /** The record of open calls is right. */
  ghost predicate Recorded(s: State, open: Open) {
    forall t: Tid :: if t in open then Th(s.threads, t).call == open[t] != NoCall else Th(s.threads, t).call == NoCall
  }

  lemma StepRecorded(s: State, a: Action, open: Open)
    requires Inv(s, true) && Enabled(s, a) && Legal(s, a) && Recorded(s, open)
    ensures Step(s, a).Next? && Recorded(Step(s, a).s, After(s, a, Step(s, a).s, open))
  {
    StepKeeps(s, a);
    var s' := Step(s, a).s;
    forall t: Tid | t != s.running ensures Th(s'.threads, t).call == Th(s.threads, t).call {
      OtherCall(s, a, t);
    }
    StepTraffic(s, a, 0);
    BackExactly(s, a, open);
    MeRecorded(s, a, s', open);
  }

  lemma MeRecorded(s: State, a: Action, s': State, open: Open)
    requires Recorded(s, open)
    requires forall t: Tid :: t != s.running ==> Th(s'.threads, t).call == Th(s.threads, t).call
    requires Th(s'.threads, s.running).call ==
      if Tested(s, a) == NoCall then Me(s).call else if Passes(s, Tested(s, a)) then NoCall else Tested(s, a)
    requires Back(s, s', Called(s, a, open)) <==> Tested(s, a) != NoCall && Passes(s, Tested(s, a))
    ensures Recorded(s', After(s, a, s', open))
  {
  }

  lemma OtherCall(s: State, a: Action, t: Tid)
    requires Inv(s, true) && Enabled(s, a) && Legal(s, a) && t != s.running
    ensures Step(s, a).Next? && Th(Step(s, a).s.threads, t).call == Th(s.threads, t).call
  {
    if a.CallStart? {
      StartMakes(s, a.t, a.priority);
      assert a.t !in s.threads;
    } else {
      StepSpares(s, a);
      assert Spared(Th(s.threads, t), Th(Step(s, a).s.threads, t));
    }
  }

  /** A call returns exactly when its loop condition lets it pass. */
  lemma BackExactly(s: State, a: Action, open: Open)
    requires Inv(s, true) && Enabled(s, a) && Legal(s, a) && Recorded(s, open)
    ensures Step(s, a).Next?
    ensures Back(s, Step(s, a).s, Called(s, a, open)) <==> Tested(s, a) != NoCall && Passes(s, Tested(s, a))
    ensures Tested(s, a) != NoCall ==> s.running in Called(s, a, open) && Called(s, a, open)[s.running] == Tested(s, a)
  {
    StepKeeps(s, a);
    StepTraffic(s, a, 0);
    var s' := Step(s, a).s;
    assert LocalOk(Th(s'.threads, s.running), Flag(s', s.running));
    if Tested(s, a) != NoCall && Passes(s, Tested(s, a)) {
      CallMoves(s, a);
    }
  }

  lemma NowIs(s: State, a: Action, q: nat, open: Open)
    requires Inv(s, true) && Enabled(s, a) && Legal(s, a) && Recorded(s, open)
    ensures Step(s, a).Next?
    ensures AcceptedNow(s, a, Step(s, a).s, q, Called(s, a, open)) == Entering(s, a, q)
    ensures ReturnedNow(s, Step(s, a).s, q, Called(s, a, open)) == Leaving(s, a, q)
  {
    BackExactly(s, a, open);
  }

  lemma TrafficAdds(s: State, s1: State, s2: State, q: nat, came: seq<char>, went: seq<char>, more: seq<char>,
                    gone: seq<char>)
    requires Traffic(s, s1, q, came, went) && Traffic(s1, s2, q, more, gone)
    ensures Traffic(s, s2, q, came + more, went + gone)
  {
  }

  lemma {:induction false} RunTraffic(s: State, actions: seq<Action>, q: nat, open: Open)
    requires Inv(s, true) && Obeys(s, actions) && Recorded(s, open)
    ensures Run(s, actions).Next?
    ensures Traffic(s, Run(s, actions).s, q, Accepted(s, actions, q, open), Returned(s, actions, q, open))
    decreases |actions|
  {
    if actions != [] {
      var a, rest := actions[0], actions[1..];
      StepKeeps(s, a);
      var s' := Step(s, a).s;
      StepTraffic(s, a, q);
      StepRecorded(s, a, open);
      NowIs(s, a, q, open);
      var later := After(s, a, s', open);
      RunTraffic(s', rest, q, later);
      TrafficAdds(s, s', Run(s', rest).s, q, Entering(s, a, q), Leaving(s, a, q),
                  Accepted(s', rest, q, later), Returned(s', rest, q, later));
    }
  }

  /** First in, first out: in every run from boot the bytes accepted for a queue are those returned from
      it, in the same order, followed by the at most 63 in the ring. */
  lemma FirstInFirstOut(actions: seq<Action>, q: nat)
    requires Obeys(BOOT, actions)
    ensures Run(BOOT, actions).Next?
    ensures var left := Pending(Qu(Run(BOOT, actions).s.queues, q));
      Accepted(BOOT, actions, q, map[]) == Returned(BOOT, actions, q, map[]) + left && |left| <= 63
    ensures Qu(Run(BOOT, actions).s.queues, q).written == Accepted(BOOT, actions, q, map[])
    ensures Qu(Run(BOOT, actions).s.queues, q).read == Returned(BOOT, actions, q, map[])
  {
    BootOk();
    RunKeeps(BOOT, actions);
    RunTraffic(BOOT, actions, q, map[]);
    RingSize(Qu(Run(BOOT, actions).s.queues, q));
    FromFresh(BOOT, Run(BOOT, actions).s, q, Accepted(BOOT, actions, q, map[]), Returned(BOOT, actions, q, map[]));
  }

  lemma FromFresh(s: State, s': State, q: nat, came: seq<char>, went: seq<char>)
    requires Qu(s.queues, q) == FRESH_QUEUE && RingOk(Qu(s'.queues, q)) && Traffic(s, s', q, came, went)
    ensures came == went + Pending(Qu(s'.queues, q))
    ensures Qu(s'.queues, q).written == came && Qu(s'.queues, q).read == went
  {
  }
}
