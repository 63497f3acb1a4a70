/** Which list operations every step makes, and that each of them is possible. */
module ListMoves {
  import opened Common
  import opened KernelState
  import opened Scheduling
  import opened Locking
  import opened IoQueues
  import opened KernelSystem
  import opened KernelInvariant
  import opened KernelSteps
  import opened KernelWakes
  import opened KernelIo
  import opened KernelSafety

  datatype ListId = ReadyList | WaiterList(l: LockId)

  /** list_append, or for front list_push; list_pop. */
  datatype ListMove = Into(list: ListId, t: Tid, front: bool) | OutOf(list: ListId)

  function Listed(s: State, i: ListId): seq<Tid> {
    match i
    case ReadyList => s.ready
    case WaiterList(l) => Lk(s.locks, l).waiters
  }

  function Made(m: ListMove, i: ListId, tids: seq<Tid>): seq<Tid> {
    if m.list != i then tids else
    match m
    case Into(_, t, front) => if front then [t] + tids else tids + [t]
    case OutOf(_) => if tids == [] then [] else tids[1..]
  }

  function Wake(slot: Option<Tid>): seq<ListMove> {
    if slot == None then [] else [Into(ReadyList, slot.value, true)]
  }

  function GetMoves(s: State, q: nat): seq<ListMove> {
    if Empty(Qu(s.queues, q)) then [] else Wake(Qu(s.queues, q).producer)
  }

  function PutMoves(s: State, q: nat): seq<ListMove> {
    if Full(Qu(s.queues, q)) then [] else Wake(Qu(s.queues, q).consumer)
  }

  function GoMoves(s: State): seq<ListMove> {
    match Me(s).pc
    case Down(l) => DownMoves(s, l)
    case Retest(l) => DownMoves(s, l)
    case Up(l) => UpMoves(s, l)
    case IoTest =>
      (match Me(s).call
       case GetChar(q) => GetMoves(s, q)
       case PutChar(q, _) => PutMoves(s, q)
       case NoCall => [])
    case IoSleep => [OutOf(ReadyList)]
    case _ => []
  }

  function DownMoves(s: State, l: LockId): seq<ListMove> {
    if Lk(s.locks, l).value == 0 then [Into(WaiterList(l), s.running, false), OutOf(ReadyList)] else []
  }

  function UpMoves(s: State, l: LockId): seq<ListMove> {
    var ws := Lk(s.locks, l).waiters;
    if ws == [] then [] else [OutOf(WaiterList(l)), Into(ReadyList, ws[0], true)]
  }

  /** The list operations of a step, in order. */
  function Moves(s: State, a: Action): (ms: seq<ListMove>)
    ensures |ms| <= 2
  {
    match a
    case Go => GoMoves(s)
    case Tick => if Me(s).ticks == 0 then [Into(ReadyList, s.running, false), OutOf(ReadyList)] else []
    case CallStart(t, _) => [Into(ReadyList, t, false)]
    case CallGet(q) => GetMoves(s, q)
    case CallPut(q, _) => PutMoves(s, q)
    case Key(q, _) => PutMoves(s, q)
    case _ => []
  }

  function MadeAll(ms: seq<ListMove>, i: ListId, tids: seq<Tid>): seq<Tid> {
    if ms == [] then tids else Made(ms[|ms| - 1], i, MadeAll(ms[..|ms| - 1], i, tids))
  }

  /** A move can be made: what enters a list is in none, and nothing leaves an empty list. */
  ghost predicate Possible(m: ListMove, s: State, before: seq<ListMove>) {
    match m
    case Into(_, t, _) => forall i :: t !in MadeAll(before, i, Listed(s, i))
    case OutOf(i) => MadeAll(before, i, Listed(s, i)) != []
  }

  // ----- the running thread, and whoever sleeps in a slot, is in no list

  lemma RunningUnlisted(s: State)
    requires Inv(s, true)
    ensures forall i :: s.running !in Listed(s, i)
  {
    forall i ensures s.running !in Listed(s, i) {
      assert Me(s).status == Running;
      if i.WaiterList? {
        assert !WaitsOn(Me(s), i.l);
      }
    }
  }

  lemma SleeperUnlisted(s: State, t: Tid)
    requires Inv(s, true) && Th(s.threads, t).status == Blocked && !Th(s.threads, t).pc.Retest?
    ensures forall i :: t !in Listed(s, i)
  {
    forall i ensures t !in Listed(s, i) {
      if i.WaiterList? {
        assert !WaitsOn(Th(s.threads, t), i.l);
      }
    }
  }

  lemma SlotsUnlisted(s: State, q: nat)
    requires Inv(s, true)
    ensures Qu(s.queues, q).consumer.Some? ==> forall i :: Qu(s.queues, q).consumer.value !in Listed(s, i)
    ensures Qu(s.queues, q).producer.Some? ==> forall i :: Qu(s.queues, q).producer.value !in Listed(s, i)
  {
    var qu := Qu(s.queues, q);
    if qu.consumer.Some? {
      assert ReaderAsleep(Th(s.threads, qu.consumer.value), q);
      SleeperUnlisted(s, qu.consumer.value);
    }
    if qu.producer.Some? {
      assert WriterAsleep(Th(s.threads, qu.producer.value), q);
      SleeperUnlisted(s, qu.producer.value);
    }
  }

  // ----- the moves make the step's lists

  /** The lists of s' are those of s after the moves. */
  ghost predicate Shown(s: State, s': State, ms: seq<ListMove>) {
    forall i :: Listed(s', i) == MadeAll(ms, i, Listed(s, i))
  }

  lemma NoMoves(s: State, s': State)
    requires s'.ready == s.ready && forall l :: Lk(s'.locks, l).waiters == Lk(s.locks, l).waiters
    ensures Shown(s, s', [])
  {
  }

  lemma OneMove(s: State, s': State, m: ListMove)
    requires forall i :: Listed(s', i) == Made(m, i, Listed(s, i))
    ensures Shown(s, s', [m])
  {
    assert [m][..0] == [];
  }

  lemma TwoMoves(s: State, s': State, m: ListMove, n: ListMove)
    requires forall i :: Listed(s', i) == Made(n, i, Made(m, i, Listed(s, i)))
    ensures Shown(s, s', [m, n])
  {
    assert [m, n][..1] == [m] && [m][..0] == [];
    forall i ensures MadeAll([m, n], i, Listed(s, i)) == Made(n, i, Made(m, i, Listed(s, i))) {
      assert MadeAll([m], i, Listed(s, i)) == Made(m, i, Listed(s, i));
    }
  }

  lemma SwitchMoves(s: State, s': State, l: Option<LockId>)
    requires l.Some? ==> s.ready != []
    requires s'.ready == (if l.None? then s.ready + [s.running] else s.ready)[1..]
    requires forall k :: Lk(s'.locks, k).waiters == Lk(s.locks, k).waiters + if l == Some(k) then [s.running] else []
    ensures Shown(s, s', [Into(if l.None? then ReadyList else WaiterList(l.value), s.running, false), OutOf(ReadyList)])
  {
    var m := Into(if l.None? then ReadyList else WaiterList(l.value), s.running, false);
    forall i ensures Listed(s', i) == Made(OutOf(ReadyList), i, Made(m, i, Listed(s, i))) {}
    TwoMoves(s, s', m, OutOf(ReadyList));
  }

  lemma TickShown(s: State)
    requires Inv(s, true) && s.intr
    ensures ClockTick(s).Next? && Shown(s, ClockTick(s).s, Moves(s, Tick))
  {
    TickKeeps(s);
    TickLists(s);
    if Me(s).ticks == 0 {
      SwitchMoves(s, ClockTick(s).s, None);
    } else {
      NoMoves(s, ClockTick(s).s);
    }
  }

  lemma TickLists(s: State)
    requires ClockTick(s).Next? && Me(s).status == Running
    ensures ClockTick(s).s.ready == if Me(s).ticks == 0 then (s.ready + [s.running])[1..] else s.ready
    ensures ClockTick(s).s.locks == s.locks
  {
  }

  lemma DownShown(s: State, l: LockId)
    requires Inv(s, true) && (Me(s).pc == Down(l) || Me(s).pc == Retest(l))
    ensures GoStep(s).Next? && Shown(s, GoStep(s).s, DownMoves(s, l))
  {
    DownKeeps(s, l);
    if Lk(s.locks, l).value == 0 {
      QueuedPlacement(s, l);
      DownBlockIs(s, l);
      QueuedShown(s, l);
    } else {
      TakenShown(s, l);
    }
  }

  lemma QueuedShown(s: State, l: LockId)
    requires Placement(s, true) && Me(s).status == Running && Dispatch(Queued(s, l)).Next?
    ensures Shown(s, Dispatch(Queued(s, l)).s, [Into(WaiterList(l), s.running, false), OutOf(ReadyList)])
  {
    SwitchMoves(s, Dispatch(Queued(s, l)).s, Some(l));
  }

  lemma TakenShown(s: State, l: LockId)
    requires (Me(s).pc == Down(l) || Me(s).pc == Retest(l)) && Lk(s.locks, l).value != 0 && GoStep(s).Next?
    ensures Shown(s, GoStep(s).s, [])
  {
    forall k ensures Lk(GoStep(s).s.locks, k).waiters == Lk(s.locks, k).waiters {}
    NoMoves(s, GoStep(s).s);
  }

  lemma UpShown(s: State, l: LockId)
    requires Inv(s, true) && Me(s).pc == Up(l)
    ensures GoStep(s).Next? && Shown(s, GoStep(s).s, UpMoves(s, l))
  {
    InvMeOk(s, l);
    SemaUpIs(s, l);
    UppedShown(s, l);
  }

  lemma UppedShown(s: State, l: LockId)
    ensures Shown(s, Upped(s, l), UpMoves(s, l))
  {
    var ws := Lk(s.locks, l).waiters;
    var s' := Upped(s, l);
    if ws == [] {
      NoMoves(s, s');
    } else {
      var m, n := OutOf(WaiterList(l)), Into(ReadyList, ws[0], true);
      forall i ensures Listed(s', i) == Made(n, i, Made(m, i, Listed(s, i))) {}
      TwoMoves(s, s', m, n);
    }
  }

  lemma WakeProducerShown(s: State, q: nat)
    requires Inv(s, true)
    ensures WakeProducer(s, q).Next? && Shown(s, WakeProducer(s, q).s, Wake(Qu(s.queues, q).producer))
  {
    WakeProducerPlacement(s, q);
    var p := Qu(s.queues, q).producer;
    if p.Some? {
      OneMove(s, WakeProducer(s, q).s, Into(ReadyList, p.value, true));
    } else {
      NoMoves(s, s);
    }
  }

  lemma WakeConsumerShown(s: State, q: nat)
    requires Inv(s, true)
    ensures WakeConsumer(s, q).Next? && Shown(s, WakeConsumer(s, q).s, Wake(Qu(s.queues, q).consumer))
  {
    WakeConsumerPlacement(s, q);
    var c := Qu(s.queues, q).consumer;
    if c.Some? {
      OneMove(s, WakeConsumer(s, q).s, Into(ReadyList, c.value, true));
    } else {
      NoMoves(s, s);
    }
  }

  /** The same lists, before the moves. */
  lemma ShownFrom(s0: State, s: State, s': State, ms: seq<ListMove>)
    requires Shown(s, s', ms) && s0.ready == s.ready && s0.locks == s.locks
    ensures Shown(s0, s', ms)
  {
    forall i ensures Listed(s', i) == MadeAll(ms, i, Listed(s0, i)) {
      assert Listed(s0, i) == Listed(s, i);
    }
  }

  lemma GetShown(s: State, q: nat)
    requires Inv(s, true) && Me(s).pc == IoTest && s.running != MAIN && Me(s).call == GetChar(q)
    ensures GetTest(s, q).Next? && Shown(s, GetTest(s, q).s, GetMoves(s, q))
  {
    GetTestKeeps(s, q);
    assert LocalOk(Me(s), Flag(s, s.running));
    var qu := Qu(s.queues, q);
    if Empty(qu) {
      NoMoves(s, GetTest(s, q).s);
    } else {
      var s1 := SetMe(WithQueue(s, q, TakeByte(qu)), Me(s).(pc := Client, call := NoCall));
      TakeByteOk(qu);
      LeaveCallKeeps(s, q, TakeByte(qu));
      WakeProducerShown(s1, q);
      ShownFrom(s, s1, WakeProducer(s1, q).s, GetMoves(s, q));
    }
  }

  lemma PutShown(s: State, q: nat, byte: char)
    requires Inv(s, true) && Me(s).pc == IoTest && s.running != MAIN && Me(s).call == PutChar(q, byte)
    ensures PutTest(s, q, byte).Next? && Shown(s, PutTest(s, q, byte).s, PutMoves(s, q))
  {
    PutTestKeeps(s, q, byte);
    assert LocalOk(Me(s), Flag(s, s.running));
    var qu := Qu(s.queues, q);
    if Full(qu) {
      NoMoves(s, PutTest(s, q, byte).s);
    } else {
      var s1 := SetMe(WithQueue(s, q, AddByte(qu, byte)), Me(s).(pc := Client, call := NoCall));
      AddByteOk(qu, byte);
      LeaveCallKeeps(s, q, AddByte(qu, byte));
      WakeConsumerShown(s1, q);
      ShownFrom(s, s1, WakeConsumer(s1, q).s, PutMoves(s, q));
    }
  }

  lemma KeyShown(s: State, q: nat, byte: char)
    requires Inv(s, true)
    ensures KeyPress(s, q, byte).Next? && Shown(s, KeyPress(s, q, byte).s, PutMoves(s, q))
  {
    KeyPressKeeps(s, q, byte);
    var qu := Qu(s.queues, q);
    if Full(qu) {
      NoMoves(s, s);
    } else {
      var s1 := WithQueue(s, q, AddByte(qu, byte));
      AddByteOk(qu, byte);
      QueueKeeps(s, q, AddByte(qu, byte));
      WakeConsumerShown(s1, q);
      ShownFrom(s, s1, WakeConsumer(s1, q).s, PutMoves(s, q));
    }
  }

  lemma SleepShown(s: State)
    requires Inv(s, true) && Me(s).pc == IoSleep && s.running != MAIN
    ensures IoWait(s).Next? && s.ready != [] && Shown(s, IoWait(s).s, [OutOf(ReadyList)])
  {
    IoWaitKeeps(s);
    assert LocalOk(Me(s), Flag(s, s.running));
    SlotsFree(s);
    IoWaitIs(s);
    forall i ensures Listed(IoWait(s).s, i) == Made(OutOf(ReadyList), i, Listed(s, i)) {}
    OneMove(s, IoWait(s).s, OutOf(ReadyList));
  }

  /** The straight-line steps of the lock code touch no list. */
  lemma StraightShown(s: State)
    requires AtLock(Me(s).pc) && !Me(s).pc.Down? && !Me(s).pc.Retest? && !Me(s).pc.Up? && GoStep(s).Next?
    ensures Shown(s, GoStep(s).s, [])
  {
    var s' := GoStep(s).s;
    assert s'.ready == s.ready && forall l :: Lk(s'.locks, l).waiters == Lk(s.locks, l).waiters by {
      if Me(s).pc.Again? || Me(s).pc.Hold? || Me(s).pc.Check? || Me(s).pc.One? {
        AcquireLists(s);
      } else {
        ReleaseLists(s);
      }
    }
    NoMoves(s, s');
  }

  lemma AcquireLists(s: State)
    requires (Me(s).pc.Again? || Me(s).pc.Hold? || Me(s).pc.Check? || Me(s).pc.One?) && GoStep(s).Next?
    ensures GoStep(s).s.ready == s.ready && forall l :: Lk(GoStep(s).s.locks, l).waiters == Lk(s.locks, l).waiters
  {
  }

  lemma ReleaseLists(s: State)
    requires (Me(s).pc.Many? || Me(s).pc.Less? || Me(s).pc.Last? || Me(s).pc.Drop? || Me(s).pc.Zero?) && GoStep(s).Next?
    ensures GoStep(s).s.ready == s.ready && forall l :: Lk(GoStep(s).s.locks, l).waiters == Lk(s.locks, l).waiters
  {
  }

  lemma QueueGoShown(s: State)
    requires Inv(s, true) && (Me(s).pc == IoTest || Me(s).pc == IoSleep || Me(s).pc == IoSlept)
    ensures GoStep(s).Next? && Shown(s, GoStep(s).s, GoMoves(s))
  {
    GoKeeps(s);
    assert LocalOk(Me(s), Flag(s, s.running));
    if Me(s).pc == IoSleep {
      SleepShown(s);
    } else if Me(s).pc == IoSlept {
      ResumeShown(s);
    } else {
      match Me(s).call
      case GetChar(q) => GetShown(s, q);
      case PutChar(q, byte) => PutShown(s, q, byte);
    }
  }

  lemma ResumeShown(s: State)
    requires Me(s).pc == IoSlept && GoStep(s).Next?
    ensures Shown(s, GoStep(s).s, GoMoves(s))
  {
    NoMoves(s, GoStep(s).s);
  }

  lemma GoShown(s: State)
    requires Inv(s, true) && Me(s).pc != Client
    ensures GoStep(s).Next? && Shown(s, GoStep(s).s, GoMoves(s))
  {
    GoKeeps(s);
    assert LocalOk(Me(s), Flag(s, s.running));
    match Me(s).pc
    case Down(l) => DownShown(s, l);
    case Retest(l) => DownShown(s, l);
    case Up(l) => UpShown(s, l);
    case IoTest => QueueGoShown(s);
    case IoSleep => QueueGoShown(s);
    case IoSlept => QueueGoShown(s);
    case _ => StraightShown(s);
  }

  /** Every step changes the ready list and the waiter lists by its moves and not otherwise. */
  lemma StepShown(s: State, a: Action)
    requires Inv(s, true) && Enabled(s, a) && Legal(s, a)
    ensures Step(s, a).Next? && Shown(s, Step(s, a).s, Moves(s, a))
  {
    StepKeeps(s, a);
    match a
    case Go => GoShown(s);
    case Tick => TickShown(s);
    case Key(q, byte) => KeyShown(s, q, byte);
    case CallGet(q) =>
      EnterCallKeeps(s, GetChar(q));
      var s1 := SetMe(s, Me(s).(pc := IoTest, call := GetChar(q)));
      GetShown(s1, q);
      ShownFrom(s, s1, GetTest(s1, q).s, GetMoves(s, q));
    case CallPut(q, byte) =>
      EnterCallKeeps(s, PutChar(q, byte));
      var s1 := SetMe(s, Me(s).(pc := IoTest, call := PutChar(q, byte)));
      PutShown(s1, q, byte);
      ShownFrom(s, s1, PutTest(s1, q, byte).s, PutMoves(s, q));
    case CallStart(t, priority) =>
      OneMove(s, Step(s, a).s, Into(ReadyList, t, false));
    case _ => NoMoves(s, Step(s, a).s);
  }

  // ----- the moves are possible

  lemma OnePossible(s: State, m: ListMove)
    requires match m
             case Into(_, t, _) => forall i :: t !in Listed(s, i)
             case OutOf(i) => Listed(s, i) != []
    ensures Possible(m, s, [])
  {
  }

  lemma SwitchPossible(s: State, m: ListMove)
    requires Inv(s, true) && m.Into? && m.t == s.running && (m.list == ReadyList || s.ready != [])
    ensures Possible(m, s, []) && Possible(OutOf(ReadyList), s, [m])
  {
    RunningUnlisted(s);
    OnePossible(s, m);
    assert [m][..0] == [];
    assert MadeAll([m], ReadyList, s.ready) == Made(m, ReadyList, s.ready);
  }

  lemma UpPossible(s: State, l: LockId)
    requires Inv(s, true) && Lk(s.locks, l).waiters != []
    ensures var w := Lk(s.locks, l).waiters[0];
      Possible(OutOf(WaiterList(l)), s, []) && Possible(Into(ReadyList, w, true), s, [OutOf(WaiterList(l))])
  {
    var ws := Lk(s.locks, l).waiters;
    var m := OutOf(WaiterList(l));
    assert ws[0] in ws && WaitsOn(Th(s.threads, ws[0]), l);
    assert [m][..0] == [];
    forall i ensures ws[0] !in MadeAll([m], i, Listed(s, i)) {
      assert MadeAll([m], i, Listed(s, i)) == Made(m, i, Listed(s, i));
      if i.WaiterList? && i.l != l {
        assert !WaitsOn(Th(s.threads, ws[0]), i.l);
      }
    }
  }

  /** main is in the ready list whenever another thread runs and may sleep. */
  lemma SomebodyReady(s: State)
    requires Inv(s, true) && s.running != MAIN
    ensures s.ready != []
  {
    assert MAIN in s.ready;
  }

  /** Whatever a step puts into a list is in no list at that moment, so its node is free; and
      what it takes a node from is not empty. */
  lemma StepPossible(s: State, a: Action, k: nat)
    requires Inv(s, true) && Enabled(s, a) && Legal(s, a) && k < |Moves(s, a)|
    ensures Possible(Moves(s, a)[k], s, Moves(s, a)[..k])
  {
    var ms := Moves(s, a);
    assert ms[..0] == [];
    if |ms| == 2 {
      assert ms[..1] == [ms[0]];
    }
    match a
    case Go => GoPossible(s, k);
    case Tick => SwitchPossible(s, ms[0]);
    case CallStart(t, _) => UnbornUnlisted(s, t);
    case CallGet(q) => SlotsUnlisted(s, q);
    case CallPut(q, _) => SlotsUnlisted(s, q);
    case Key(q, _) => SlotsUnlisted(s, q);
  }

  lemma UnbornUnlisted(s: State, t: Tid)
    requires Inv(s, true) && t !in s.threads
    ensures forall i :: t !in Listed(s, i)
  {
    forall i ensures t !in Listed(s, i) {
      if i.WaiterList? {
        assert !WaitsOn(Th(s.threads, t), i.l);
      }
    }
  }

  lemma GoPossible(s: State, k: nat)
    requires Inv(s, true) && Me(s).pc != Client && k < |GoMoves(s)| <= 2
    ensures Possible(GoMoves(s)[k], s, GoMoves(s)[..k])
  {
    var ms := GoMoves(s);
    assert ms[..0] == [];
    if |ms| == 2 {
      assert ms[..1] == [ms[0]];
    }
    assert LocalOk(Me(s), Flag(s, s.running));
    match Me(s).pc
    case Down(l) => GoesToSleep(s, l); SwitchPossible(s, ms[0]);
    case Retest(l) => GoesToSleep(s, l); SwitchPossible(s, ms[0]);
    case Up(l) => UpPossible(s, l);
    case IoTest => SlotsUnlisted(s, Me(s).call.q);
    case IoSleep => SomebodyReady(s);
  }

  lemma GoesToSleep(s: State, l: LockId)
    requires Inv(s, true) && (Me(s).pc == Down(l) || Me(s).pc == Retest(l)) && Lk(s.locks, l).value == 0
    ensures s.ready != []
  {
    if s.running == MAIN {
      MainFindsItFree(s, l);
    }
    SomebodyReady(s);
  }

  // ----- only a start makes a thread

  predicate Exists(s: State, t: Tid) {
    Th(s.threads, t).status != Unborn
  }

  /** No thread exists in s' that did not exist in s. */
  ghost predicate NoneBorn(s: State, s': State) {
    forall t: Tid :: Exists(s', t) ==> Exists(s, t)
  }

  lemma DispatchBirth(s: State)
    requires Placement(s, false) && Dispatch(s).Next?
    ensures NoneBorn(s, Dispatch(s).s)
  {
    assert s.ready[0] in s.ready;
  }

  lemma DownBirth(s: State, l: LockId)
    requires Inv(s, true) && (Me(s).pc == Down(l) || Me(s).pc == Retest(l))
    ensures GoStep(s).Next? && NoneBorn(s, GoStep(s).s)
  {
    DownKeeps(s, l);
    assert Me(s).status == Running;
    if Lk(s.locks, l).value == 0 {
      QueuedPlacement(s, l);
      DownBlockIs(s, l);
      QueuedBirth(s, l);
    } else {
      TakenBirth(s, l);
    }
  }

  lemma QueuedBirth(s: State, l: LockId)
    requires Placement(Queued(s, l), false) && Me(s).status == Running && Dispatch(Queued(s, l)).Next?
    ensures NoneBorn(s, Dispatch(Queued(s, l)).s)
  {
    DispatchBirth(Queued(s, l));
    assert NoneBorn(s, Queued(s, l));
  }

  lemma TakenBirth(s: State, l: LockId)
    requires (Me(s).pc == Down(l) || Me(s).pc == Retest(l)) && Lk(s.locks, l).value != 0 && GoStep(s).Next?
    requires Me(s).status == Running
    ensures NoneBorn(s, GoStep(s).s)
  {
  }

  lemma UpBirth(s: State, l: LockId)
    requires Inv(s, true) && Me(s).pc == Up(l)
    ensures GoStep(s).Next? && NoneBorn(s, GoStep(s).s)
  {
    InvMeOk(s, l);
    SemaUpIs(s, l);
    UppedBirth(s, l);
  }

  lemma UppedBirth(s: State, l: LockId)
    requires Placement(s, true) && Me(s).status == Running
    ensures NoneBorn(s, Upped(s, l))
  {
    var ws := Lk(s.locks, l).waiters;
    if ws != [] {
      assert ws[0] in ws && WaitsOn(Th(s.threads, ws[0]), l);
    }
  }

  lemma AcquireBirth(s: State)
    requires (Me(s).pc.Again? || Me(s).pc.Hold? || Me(s).pc.Check? || Me(s).pc.One?) && GoStep(s).Next?
    requires Me(s).status == Running
    ensures NoneBorn(s, GoStep(s).s)
  {
  }

  lemma ReleaseBirth(s: State)
    requires (Me(s).pc.Many? || Me(s).pc.Less? || Me(s).pc.Last? || Me(s).pc.Drop? || Me(s).pc.Zero?) && GoStep(s).Next?
    requires Me(s).status == Running
    ensures NoneBorn(s, GoStep(s).s)
  {
  }

  lemma WakeBirth(s: State, q: nat)
    ensures WakeProducer(s, q).Next? ==> NoneBorn(s, WakeProducer(s, q).s)
    ensures WakeConsumer(s, q).Next? ==> NoneBorn(s, WakeConsumer(s, q).s)
  {
  }

  lemma TestBirth(s: State, q: nat, byte: char)
    requires Me(s).status == Running
    ensures GetTest(s, q).Next? ==> NoneBorn(s, GetTest(s, q).s)
    ensures PutTest(s, q, byte).Next? ==> NoneBorn(s, PutTest(s, q, byte).s)
  {
    WakeBirth(SetMe(WithQueue(s, q, TakeByte(Qu(s.queues, q))), Me(s).(pc := Client, call := NoCall)), q);
    WakeBirth(SetMe(WithQueue(s, q, AddByte(Qu(s.queues, q), byte)), Me(s).(pc := Client, call := NoCall)), q);
  }

  lemma SleepBirth(s: State)
    requires Inv(s, true) && Me(s).pc == IoSleep && s.running != MAIN
    ensures IoWait(s).Next? && NoneBorn(s, IoWait(s).s)
  {
    IoWaitKeeps(s);
    assert LocalOk(Me(s), Flag(s, s.running));
    SlotsFree(s);
    IoWaitIs(s);
    AsleepPlacement(s);
    DispatchBirth(Asleep(s));
  }

  lemma QueueGoBirth(s: State)
    requires Inv(s, true) && (Me(s).pc == IoTest || Me(s).pc == IoSleep || Me(s).pc == IoSlept) && GoStep(s).Next?
    ensures NoneBorn(s, GoStep(s).s)
  {
    assert LocalOk(Me(s), Flag(s, s.running)) && Me(s).status == Running;
    if Me(s).pc == IoTest {
      TestBirth(s, Me(s).call.q, if Me(s).call.PutChar? then Me(s).call.byte else ' ');
    } else if Me(s).pc == IoSleep {
      SleepBirth(s);
    }
  }

  lemma GoBirth(s: State)
    requires Inv(s, true) && Me(s).pc != Client
    ensures GoStep(s).Next? && NoneBorn(s, GoStep(s).s)
  {
    GoKeeps(s);
    assert LocalOk(Me(s), Flag(s, s.running)) && Me(s).status == Running;
    match Me(s).pc
    case Down(l) => DownBirth(s, l);
    case Retest(l) => DownBirth(s, l);
    case Up(l) => UpBirth(s, l);
    case IoTest => QueueGoBirth(s);
    case IoSleep => QueueGoBirth(s);
    case IoSlept => QueueGoBirth(s);
    case _ =>
      if Me(s).pc.Again? || Me(s).pc.Hold? || Me(s).pc.Check? || Me(s).pc.One? {
        AcquireBirth(s);
      } else {
        ReleaseBirth(s);
      }
  }

  lemma MeBirth(s: State, s': State)
    requires Me(s).status != Unborn && s'.threads == SetTh(s.threads, s.running, Th(s'.threads, s.running))
    ensures NoneBorn(s, s')
  {
  }

  lemma TickBirth(s: State)
    requires Placement(s, true) && ClockTick(s).Next?
    ensures NoneBorn(s, ClockTick(s).s)
  {
    assert Me(s).status == Running;
    if Me(s).ticks == 0 {
      PreemptedPlacement(s);
      PreemptIs(s);
      DispatchBirth(Preempted(s));
      MeBirth(s, Preempted(s));
    } else {
      MeBirth(s, ClockTick(s).s);
    }
  }

  /** Threads come into being by being started. */
  lemma StepBirth(s: State, a: Action)
    requires Inv(s, true) && Enabled(s, a) && Legal(s, a)
    ensures Step(s, a).Next? && forall t: Tid :: Exists(Step(s, a).s, t) ==> Exists(s, t) || (a.CallStart? && a.t == t)
  {
    StepKeeps(s, a);
    assert Me(s).status == Running;
    match a
    case Go => GoBirth(s);
    case Tick => TickBirth(s);
    case Key(q, byte) => WakeBirth(WithQueue(s, q, AddByte(Qu(s.queues, q), byte)), q);
    case CallGet(q) => TestBirth(SetMe(s, Me(s).(pc := IoTest, call := GetChar(q))), q, ' ');
    case CallPut(q, byte) => TestBirth(SetMe(s, Me(s).(pc := IoTest, call := PutChar(q, byte))), q, byte);
    case _ =>
  }

  /** What a step puts into a list is a thread that exists or that it starts. */
  lemma MovesExisting(s: State, a: Action, k: nat)
    requires Inv(s, true) && Enabled(s, a) && Legal(s, a) && k < |Moves(s, a)|
    ensures Moves(s, a)[k].Into? ==> Exists(s, Moves(s, a)[k].t) || (a.CallStart? && a.t == Moves(s, a)[k].t)
  {
    assert Me(s).status == Running;
    if a.Go? && Me(s).pc.Up? {
      var ws := Lk(s.locks, Me(s).pc.l).waiters;
      assert ws[0] in ws && WaitsOn(Th(s.threads, ws[0]), Me(s).pc.l);
    }
    forall q: nat
      ensures Qu(s.queues, q).consumer.Some? ==> Exists(s, Qu(s.queues, q).consumer.value)
      ensures Qu(s.queues, q).producer.Some? ==> Exists(s, Qu(s.queues, q).producer.value)
    {
      SleepersExist(s, q);
    }
  }

  lemma SleepersExist(s: State, q: nat)
    requires Inv(s, true)
    ensures Qu(s.queues, q).consumer.Some? ==> Exists(s, Qu(s.queues, q).consumer.value)
    ensures Qu(s.queues, q).producer.Some? ==> Exists(s, Qu(s.queues, q).producer.value)
  {
    var qu := Qu(s.queues, q);
    if qu.consumer.Some? {
      assert ReaderAsleep(Th(s.threads, qu.consumer.value), q);
    }
    if qu.producer.Some? {
      assert WriterAsleep(Th(s.threads, qu.producer.value), q);
    }
  }

  /** A thread that exists in s or is started by a. */
  predicate Around(s: State, a: Action, t: Tid) {
    Exists(s, t) || (a.CallStart? && a.t == t)
  }

  /** The moves of a can be made one after the other, with threads that are around; they lead to
      the lists of s', which has no other threads. */
  ghost predicate Carries(s: State, a: Action, s': State) {
    && (forall k :: 0 <= k < |Moves(s, a)| ==>
          Possible(Moves(s, a)[k], s, Moves(s, a)[..k]) && (Moves(s, a)[k].Into? ==> Around(s, a, Moves(s, a)[k].t)))
    && Shown(s, s', Moves(s, a))
    && forall t: Tid :: Exists(s', t) ==> Around(s, a, t)
  }

  /** Every step the callers' rules allow, from every state that satisfies the invariant. */
  lemma StepCarries(s: State, a: Action)
    requires Inv(s, true) && Enabled(s, a) && Legal(s, a)
    ensures Step(s, a).Next? && Carries(s, a, Step(s, a).s)
  {
    StepShown(s, a);
    StepBirth(s, a);
    forall k | 0 <= k < |Moves(s, a)|
      ensures Possible(Moves(s, a)[k], s, Moves(s, a)[..k]) && (Moves(s, a)[k].Into? ==> Around(s, a, Moves(s, a)[k].t))
    {
      StepPossible(s, a, k);
      MovesExisting(s, a, k);
    }
  }

  /** So it is for every step of a run. */
  ghost predicate AllCarry(s: State, actions: seq<Action>)
    decreases |actions|
  {
    actions == [] ||
    (&& Step(s, actions[0]).Next? && Carries(s, actions[0], Step(s, actions[0]).s)
     && AllCarry(Step(s, actions[0]).s, actions[1..]))
  }

  lemma {:induction false} RunCarries(s: State, actions: seq<Action>)
    requires Inv(s, true) && Obeys(s, actions)
    ensures AllCarry(s, actions)
    decreases |actions|
  {
    if actions != [] {
      StepKeeps(s, actions[0]);
      StepCarries(s, actions[0]);
      RunCarries(Step(s, actions[0]).s, actions[1..]);
    }
  }

  /** One more move. */
  lemma MadeNext(ms: seq<ListMove>, k: nat, i: ListId, tids: seq<Tid>)
    requires k < |ms|
    ensures MadeAll(ms[..k + 1], i, tids) == Made(ms[k], i, MadeAll(ms[..k], i, tids))
  {
    assert ms[..k + 1][..k] == ms[..k];
  }

  /** A list no move names stays as it is. */
  lemma {:induction false} MadeElsewhere(ms: seq<ListMove>, i: ListId, tids: seq<Tid>)
    requires forall k :: 0 <= k < |ms| ==> ms[k].list != i
    ensures MadeAll(ms, i, tids) == tids
    decreases |ms|
  {
    if ms != [] {
      MadeElsewhere(ms[..|ms| - 1], i, tids);
    }
  }
}
