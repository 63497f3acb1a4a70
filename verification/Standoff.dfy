/** Where a bounded queue with a blocking writer stops: the reader sleeps in its slot and holds the
    queue's lock, and the writer waits for that lock, whatever room or bytes there are.

    Such a state is left exactly when a byte enters the queue from elsewhere, and it can be
    reached, with the ring empty: the writer fills the ring while the reader it has woken still
    holds the lock, and waits for it; the reader gives the lock up, empties the ring, finds the
    lock free before the woken writer has run, and sleeps again. */
module Standoff {
  import opened Common
  import opened KernelState
  import opened Scheduling
  import opened Locking
  import opened IoQueues
  import opened KernelSystem
  import opened KernelInvariant
  import opened KernelIo
  import opened KernelSafety
  import opened StepFrame
  import opened QueueTraffic
  import opened ReaderProgress
  import opened ListMoves
  import opened RoundRobin

  /** Reader r sleeps in its slot, and writer w waits for the lock, which r holds. */
  ghost predicate Stuck(s: State, q: nat, r: Tid, w: Tid) {
    && ReaderAsleep(Th(s.threads, r), q) && WaitsOn(Th(s.threads, w), QueueLock(q))
    && Th(s.threads, w).call.PutChar? && Th(s.threads, w).call.q == q
  }

  // ----- nobody gets out unless a byte comes in

  /** r holds the queue's lock, so nobody is giving it up. */
  lemma NobodyUps(s: State, q: nat, r: Tid)
    requires Inv(s, true) && ReaderAsleep(Th(s.threads, r), q)
    ensures Me(s).pc != Up(QueueLock(q)) && s.running != r
  {
    var l := QueueLock(q);
    assert LocalOk(Th(s.threads, r), Flag(s, r));
    assert LockOk(s.threads, Lk(s.locks, l), l);
    assert Owns(Th(s.threads, r), l) && Me(s).status == Running;
    assert Owns(Me(s), l) ==> s.running == r;
  }

  lemma {:induction false} MadeKeeps(ms: seq<ListMove>, i: ListId, tids: seq<Tid>, t: Tid)
    requires (forall k :: 0 <= k < |ms| ==> ms[k] != OutOf(i)) && t in tids
    ensures t in MadeAll(ms, i, tids)
    decreases |ms|
  {
    if ms != [] {
      var front := ms[..|ms| - 1];
      forall k | 0 <= k < |front| ensures front[k] != OutOf(i) {
        assert front[k] == ms[k];
      }
      MadeKeeps(front, i, tids, t);
    }
  }

  lemma NoPop(s: State, a: Action, l: LockId)
    requires Me(s).pc != Up(l)
    ensures forall k :: 0 <= k < |Moves(s, a)| ==> Moves(s, a)[k] != OutOf(WaiterList(l))
  {
  }

  /** A thread that exists and does not run keeps its place and its call. */
  lemma OtherStays(s: State, a: Action, t: Tid)
    requires Inv(s, true) && Enabled(s, a) && Legal(s, a) && t != s.running && t in s.threads
    ensures Step(s, a).Next? && Spared(Th(s.threads, t), Th(Step(s, a).s.threads, t))
  {
    if a.CallStart? {
      StartMakes(s, a.t, a.priority);
    } else {
      StepSpares(s, a);
    }
  }

  /** Nobody leaves the waiter list. */
  lemma WaiterStays(s: State, a: Action, q: nat, r: Tid, w: Tid)
    requires Inv(s, true) && Enabled(s, a) && Legal(s, a) && ReaderAsleep(Th(s.threads, r), q)
    requires WaitsOn(Th(s.threads, w), QueueLock(q))
    ensures Step(s, a).Next? && w in Lk(Step(s, a).s.locks, QueueLock(q)).waiters
  {
    var i := WaiterList(QueueLock(q));
    NobodyUps(s, q, r);
    NoPop(s, a, QueueLock(q));
    StepShown(s, a);
    assert w in Listed(s, i);
    MadeKeeps(Moves(s, a), i, Listed(s, i), w);
    assert Listed(Step(s, a).s, i) == MadeAll(Moves(s, a), i, Listed(s, i));
  }

  /** A step leads out of a standoff if and only if it puts a byte into the queue. */
  lemma StuckStep(s: State, a: Action, q: nat, r: Tid, w: Tid)
    requires Inv(s, true) && Stuck(s, q, r, w) && Enabled(s, a) && Legal(s, a)
    ensures Step(s, a).Next? && Inv(Step(s, a).s, true)
    ensures Stuck(Step(s, a).s, q, r, w) <==> Qu(Step(s, a).s.queues, q).written == Qu(s.queues, q).written
  {
    StepKeeps(s, a);
    var s' := Step(s, a).s;
    WaiterStays(s, a, q, r, w);
    StepTraffic(s, a, q);
    NobodyUps(s, q, r);
    assert Me(s).status == Running;
    OtherStays(s, a, r);
    OtherStays(s, a, w);
    assert Qu(s.queues, q).consumer == Some(r);
    assert ReaderAsleep(Th(s'.threads, r), q) <==> Qu(s'.queues, q).consumer == Some(r);
    assert WaitsOn(Th(s'.threads, w), QueueLock(q));
  }

  // ----- for ever, if nobody else writes

  /** No thread but w is in ioq_putchar on q. */
  ghost predicate SoleWriter(s: State, q: nat, w: Tid) {
    forall t: Tid :: t != w ==> !(Th(s.threads, t).call.PutChar? && Th(s.threads, t).call.q == q)
  }

  /** Nobody starts to write to q. */
  predicate NoWrites(actions: seq<Action>, q: nat) {
    forall a :: a in actions ==> !((a.CallPut? || a.Key?) && a.q == q)
  }

  lemma SoleWriterStays(s: State, a: Action, q: nat, w: Tid)
    requires Inv(s, true) && Enabled(s, a) && Legal(s, a) && SoleWriter(s, q, w) && !(a.CallPut? && a.q == q)
    ensures Step(s, a).Next? && SoleWriter(Step(s, a).s, q, w)
  {
    StepKeeps(s, a);
    StepTraffic(s, a, q);
    forall t: Tid | t != s.running ensures Th(Step(s, a).s.threads, t).call == Th(s.threads, t).call {
      OtherCall(s, a, t);
    }
  }

  /** A standoff lasts for ever, unless a thread other than w, or the keyboard, writes to q. */
  lemma {:induction false} StuckForever(s: State, actions: seq<Action>, q: nat, r: Tid, w: Tid)
    requires Inv(s, true) && Stuck(s, q, r, w) && SoleWriter(s, q, w)
    requires Obeys(s, actions) && NoWrites(actions, q)
    ensures Run(s, actions).Next? && Stuck(Run(s, actions).s, q, r, w)
    decreases |actions|
  {
    if actions != [] {
      var a := actions[0];
      assert a in actions;
      assert Me(s).status == Running;
      StuckStep(s, a, q, r, w);
      StepTraffic(s, a, q);
      SoleWriterStays(s, a, q, w);
      StuckForever(Step(s, a).s, actions[1..], q, r, w);
    }
  }

  // ----- and it happens

  /** What matters of a state with main, the reader 1, the writer 2 and nobody else; nobody sleeps
      in the writer's slot. */
  datatype Scene = Scene(main: Thread, r: Thread, w: Thread, lk: Lock, head: nat, tail: nat, consumer: Option<Tid>,
                         ready: seq<Tid>, running: Tid, intr: bool)

  const READER: Tid := 1
  const WRITER: Tid := 2

  ghost predicate Only(s: State) {
    forall t: Tid :: t > WRITER ==> Th(s.threads, t) == NO_THREAD
  }

  ghost predicate Shows(s: State, q: nat, v: Scene) {
    var qu := Qu(s.queues, q);
    && Reachable(s) && !s.booting && Only(s)
    && Th(s.threads, MAIN) == v.main && Th(s.threads, READER) == v.r && Th(s.threads, WRITER) == v.w
    && Lk(s.locks, QueueLock(q)) == v.lk
    && qu.head == v.head && qu.tail == v.tail && qu.consumer == v.consumer && qu.producer == None
    && s.ready == v.ready && s.running == v.running && s.intr == v.intr
  }

  lemma {:induction false} RunAppend(s: State, a: seq<Action>, b: seq<Action>)
    requires Obeys(s, a) && Run(s, a).Next? && Obeys(Run(s, a).s, b)
    ensures Obeys(s, a + b) && Run(s, a + b) == Run(Run(s, a).s, b)
    decreases |a|
  {
    if a == [] {
      assert a + b == b;
    } else {
      assert (a + b)[0] == a[0] && (a + b)[1..] == a[1..] + b;
      RunAppend(Step(s, a[0]).s, a[1..], b);
    }
  }

  lemma ReachRun(s: State, actions: seq<Action>)
    requires Reachable(s) && Obeys(s, actions)
    ensures Run(s, actions).Next? && Reachable(Run(s, actions).s)
  {
    ReachableInv(s);
    RunKeeps(s, actions);
    var before :| Obeys(BOOT, before) && Run(BOOT, before) == Next(s);
    RunAppend(BOOT, before, actions);
  }

  lemma Advance(s: State, a: Action) returns (s': State)
    requires Reachable(s) && Enabled(s, a) && Legal(s, a)
    ensures Step(s, a) == Next(s') && Reachable(s')
  {
    ReachableInv(s);
    StepKeeps(s, a);
    s' := Step(s, a).s;
    assert Run(s, [a]) == Next(s') && Obeys(s, [a]);
    ReachRun(s, [a]);
  }

  /** main starts the reader and the writer and enables interrupts ... */
  lemma Started(q: nat) returns (s: State, v: Scene)
    ensures Shows(s, q, v) && v.running == MAIN && v.intr && v.ready == [READER, WRITER]
    ensures v.r == v.w == Thread(Ready, true, false, Client, NoCall, map[], 0, 0) && v.main.ticks == 31
    ensures v.lk == FRESH_LOCK && v.head == v.tail == 0 && v.consumer == None
  {
    assert Run(BOOT, []) == Next(BOOT) && Obeys(BOOT, []);
    var s1 := Advance(BOOT, CallStart(READER, 0));
    var s2 := Advance(s1, CallStart(WRITER, 0));
    s := Advance(s2, CallSetIntr(true));
    v := Scene(Me(s), Th(s.threads, READER), Th(s.threads, WRITER), FRESH_LOCK, 0, 0, None, s.ready, MAIN, true);
  }

  lemma QuantumEnds(s: State)
    requires Reachable(s) && s.intr
    ensures Reachable(Turned(s))
  {
    ReachableInv(s);
    assert Me(s).status == Running;
    Turn(s, MAIN);
    TicksAreARun(s, Me(s).ticks + 1);
    ReachRun(s, TickRun(Me(s).ticks + 1));
  }

  /** ... and its quantum ends. */
  lemma ReaderOn(q: nat) returns (s: State, v: Scene)
    ensures Shows(s, q, v) && v.running == READER && v.intr && v.ready == [WRITER, MAIN]
    ensures v.r == Thread(Running, true, false, Client, NoCall, map[], 0, 0) && v.w == v.r.(status := Ready) &&
      v.main.savedIf
    ensures v.lk == FRESH_LOCK && v.head == v.tail == 0 && v.consumer == None
  {
    var s0, v0 := Started(q);
    QuantumEnds(s0);
    s := Turned(s0);
    v := Scene(Th(s.threads, MAIN), Me(s), v0.w, FRESH_LOCK, 0, 0, None, s.ready, READER, true);
  }

  /** A thread turns interrupts off before it calls the queue. */
  lemma Masks(s: State, q: nat, v: Scene) returns (s': State)
    requires Shows(s, q, v) && Me(s).pc == Client
    ensures Shows(s', q, v.(intr := false))
  {
    s' := Advance(s, CallSetIntr(false));
  }

  /** The reader calls the queue: it takes a byte, or goes for the lock. */
  lemma Gets(s: State, q: nat, v: Scene) returns (s': State)
    requires Shows(s, q, v) && v.running == READER && v.r.pc == Client && !v.intr
    requires v.head == v.tail ==> v.lk.holder != Some(READER)
    ensures Shows(s', q, if v.head == v.tail then v.(r := v.r.(call := GetChar(q), pc := Down(QueueLock(q))))
                         else v.(r := v.r.(call := NoCall), tail := (v.tail + 1) % BUFSIZE))
  {
    s' := Advance(s, CallGet(q));
  }

  /** The lock is free: the reader gets it ... */
  lemma Takes(s: State, q: nat, v: Scene) returns (s': State)
    requires Shows(s, q, v) && v.running == READER && v.r.pc == Down(QueueLock(q)) && !v.intr && v.lk.value == 1
    ensures Shows(s', q, v.(r := v.r.(oldIf := false, pc := Hold(QueueLock(q))),
                            lk := v.lk.(value := 0, owner := Some(READER))))
  {
    s' := Advance(s, Go);
  }

  lemma Holds(s: State, q: nat, v: Scene) returns (s': State)
    requires Shows(s, q, v) && v.running == READER && v.r.pc == Hold(QueueLock(q)) && v.lk.repeat == 0
    ensures Shows(s', q, v.(r := v.r.(pc := One(QueueLock(q))), lk := v.lk.(holder := Some(READER))))
  {
    var s1 := Advance(s, Go);
    s' := Advance(s1, Go);
  }

  lemma Counts(s: State, q: nat, v: Scene) returns (s': State)
    requires Shows(s, q, v) && v.running == READER && v.r.pc == One(QueueLock(q)) && v.r.call == GetChar(q)
    ensures Shows(s', q, v.(r := SetDepth(v.r, QueueLock(q), Depth(v.r, QueueLock(q)) + 1).(pc := IoSleep),
                            lk := v.lk.(repeat := 1)))
  {
    s' := Advance(s, Go);
  }

  /** ... and sleeps in its slot; the writer, first in the list, goes on. */
  lemma Sleeps(s: State, q: nat, v: Scene) returns (s': State)
    requires Shows(s, q, v) && v.running == READER && v.r.pc == IoSleep && v.r.call == GetChar(q) && v.consumer == None
    requires v.r.status == Running && v.ready == [WRITER, MAIN]
    ensures Shows(s', q, v.(r := v.r.(pc := IoSlept, status := Blocked, savedIf := v.intr), consumer := Some(READER),
                            w := v.w.(status := Running), running := WRITER, ready := [MAIN], intr := v.w.savedIf))
  {
    s' := Advance(s, Go);
  }

  /** From the call to the count ... */
  lemma GetsLock(s: State, q: nat, v: Scene) returns (s': State, v': Scene)
    requires Shows(s, q, v) && v.running == READER && v.r.pc == Client && !v.intr
    requires v.head == v.tail && v.lk.holder == None && v.lk.value == 1 && v.lk.repeat == 0
    ensures Shows(s', q, v')
    ensures v' == v.(r := v.r.(call := GetChar(q), oldIf := false, pc := One(QueueLock(q))),
                     lk := v.lk.(value := 0, owner := Some(READER), holder := Some(READER)))
  {
    var l := QueueLock(q);
    s' := Gets(s, q, v);
    v' := v.(r := v.r.(call := GetChar(q), pc := Down(l)));
    s' := Takes(s', q, v');
    v' := v'.(r := v'.r.(oldIf := false, pc := Hold(l)), lk := v'.lk.(value := 0, owner := Some(READER)));
    s' := Holds(s', q, v');
    v' := v'.(r := v'.r.(pc := One(l)), lk := v'.lk.(holder := Some(READER)));
  }

  /** ... and all of it. */
  lemma FallsAsleep(s: State, q: nat, v: Scene) returns (s': State, v': Scene)
    requires Shows(s, q, v) && v.running == READER && v.r.pc == Client && !v.intr && v.r.status == Running
    requires v.head == v.tail && v.lk.holder == None && v.lk.value == 1 && v.lk.repeat == 0 && v.consumer == None
    requires v.ready == [WRITER, MAIN] && Depth(v.r, QueueLock(q)) == 0
    ensures Shows(s', q, v') && v'.running == WRITER && v'.ready == [MAIN] && v'.intr == v.w.savedIf
    ensures v'.w == v.w.(status := Running) && v'.main == v.main && v'.head == v.head && v'.tail == v.tail
    ensures v'.r.pc == IoSlept && v'.r.call == GetChar(q) && v'.r.status == Blocked && !v'.r.savedIf
    ensures Depth(v'.r, QueueLock(q)) == 1 && v'.consumer == Some(READER)
    ensures v'.lk == v.lk.(value := 0, holder := Some(READER), repeat := 1, owner := Some(READER))
  {
    s', v' := GetsLock(s, q, v);
    s' := Counts(s', q, v');
    v' := v'.(r := SetDepth(v'.r, QueueLock(q), 1).(pc := IoSleep), lk := v'.lk.(repeat := 1));
    s' := Sleeps(s', q, v');
    v' := v'.(r := v'.r.(pc := IoSlept, status := Blocked, savedIf := v'.intr), consumer := Some(READER),
              w := v'.w.(status := Running), running := WRITER, ready := [MAIN], intr := v'.w.savedIf);
  }

  /** The writer's first byte wakes the reader. */
  lemma PutsFirst(s: State, q: nat, v: Scene) returns (s': State)
    requires Shows(s, q, v) && v.running == WRITER && v.w.pc == Client && !v.intr && v.head == v.tail == 0
    requires v.consumer == Some(READER) && v.r.status == Blocked && v.ready == [MAIN]
    ensures Shows(s', q, v.(w := v.w.(call := NoCall), head := 1, consumer := None,
                            r := v.r.(status := Ready), ready := [READER, MAIN]))
  {
    s' := Advance(s, CallPut(q, 'a'));
  }

  lemma PutsOne(s: State, q: nat, v: Scene) returns (s': State)
    requires Shows(s, q, v) && v.running == WRITER && v.w.pc == Client && v.w.call == NoCall && !v.intr
    requires v.consumer == None && v.tail == 0 && v.head < 63
    ensures Shows(s', q, v.(head := v.head + 1))
  {
    s' := Advance(s, CallPut(q, 'a'));
  }

  /** It fills the ring ... */
  lemma {:induction false} Fills(s: State, q: nat, v: Scene) returns (s': State)
    requires Shows(s, q, v) && v.running == WRITER && v.w.pc == Client && v.w.call == NoCall && !v.intr
    requires v.consumer == None && v.tail == 0 && v.head <= 63
    ensures Shows(s', q, v.(head := 63))
    decreases 63 - v.head
  {
    if v.head == 63 {
      s' := s;
    } else {
      s' := PutsOne(s, q, v);
      s' := Fills(s', q, v.(head := v.head + 1));
    }
  }

  /** ... finds it full and goes for the lock ... */
  lemma WantsLock(s: State, q: nat, v: Scene) returns (s': State)
    requires Shows(s, q, v) && v.running == WRITER && v.w.pc == Client && !v.intr && v.head == 63 && v.tail == 0
    requires v.lk.holder == Some(READER)
    ensures Shows(s', q, v.(w := v.w.(call := PutChar(q, 'a'), pc := Down(QueueLock(q)))))
  {
    s' := Advance(s, CallPut(q, 'a'));
  }

  /** ... and waits for it, the first time or again: `next` goes on. */
  lemma Waits(s: State, q: nat, v: Scene, next: Tid) returns (s': State)
    requires Shows(s, q, v) && v.running == WRITER && (v.w.pc == Down(QueueLock(q)) || v.w.pc == Retest(QueueLock(q)))
    requires !v.intr && v.lk.value == 0 && v.lk.waiters == [] && v.ready != [] && v.w.status == Running
    requires v.ready[0] == next && (next == READER || next == MAIN)
    ensures Shows(s', q, v.(w := Th(s'.threads, WRITER), lk := v.lk.(waiters := [WRITER]),
                            running := next, ready := v.ready[1..],
                            r := if next == READER then v.r.(status := Running) else v.r,
                            main := if next == MAIN then v.main.(status := Running) else v.main,
                            intr := if next == READER then v.r.savedIf else v.main.savedIf))
    ensures Th(s'.threads, WRITER).pc == Retest(QueueLock(q)) && Th(s'.threads, WRITER).status == Blocked
    ensures Th(s'.threads, WRITER).call == v.w.call && !Th(s'.threads, WRITER).savedIf
  {
    s' := Advance(s, Go);
  }

  /** The reader is back from its sleep: three tests ... */
  lemma Resumes(s: State, q: nat, v: Scene) returns (s': State)
    requires Shows(s, q, v) && v.running == READER && v.r.pc == IoSlept && v.r.call == GetChar(q)
    requires v.lk.holder == Some(READER) && v.lk.repeat == 1
    ensures Shows(s', q, v.(r := v.r.(pc := Pc.Drop(QueueLock(q)))))
  {
    var l := QueueLock(q);
    s' := BackFromSleep(s, q, v);
    s' := TestsCount(s', q, v.(r := v.r.(pc := Many(l))));
    s' := ChecksLast(s', q, v.(r := v.r.(pc := Last(l))));
  }

  lemma BackFromSleep(s: State, q: nat, v: Scene) returns (s': State)
    requires Shows(s, q, v) && v.running == READER && v.r.pc == IoSlept && v.r.call == GetChar(q) &&
      v.lk.holder == Some(READER)
    ensures Shows(s', q, v.(r := v.r.(pc := Many(QueueLock(q)))))
  {
    s' := Advance(s, Go);
  }

  lemma TestsCount(s: State, q: nat, v: Scene) returns (s': State)
    requires Shows(s, q, v) && v.running == READER && v.r.pc == Many(QueueLock(q)) && v.lk.repeat == 1
    ensures Shows(s', q, v.(r := v.r.(pc := Last(QueueLock(q)))))
  {
    s' := Advance(s, Go);
  }

  lemma ChecksLast(s: State, q: nat, v: Scene) returns (s': State)
    requires Shows(s, q, v) && v.running == READER && v.r.pc == Last(QueueLock(q)) && v.lk.repeat == 1
    ensures Shows(s', q, v.(r := v.r.(pc := Pc.Drop(QueueLock(q)))))
  {
    s' := Advance(s, Go);
  }

  /** ... the two writes ... */
  lemma Drops(s: State, q: nat, v: Scene) returns (s': State)
    requires Shows(s, q, v) && v.running == READER && v.r.pc == Pc.Drop(QueueLock(q))
    ensures Shows(s', q, v.(r := SetDepth(v.r, QueueLock(q), 0).(pc := Up(QueueLock(q))),
                            lk := v.lk.(holder := None, repeat := 0)))
  {
    s' := ClearsHolder(s, q, v);
    s' := ClearsCount(s', q, v.(r := SetDepth(v.r, QueueLock(q), 0).(pc := Zero(QueueLock(q))),
                                lk := v.lk.(holder := None)));
  }

  lemma ClearsHolder(s: State, q: nat, v: Scene) returns (s': State)
    requires Shows(s, q, v) && v.running == READER && v.r.pc == Pc.Drop(QueueLock(q))
    ensures Shows(s', q, v.(r := SetDepth(v.r, QueueLock(q), 0).(pc := Zero(QueueLock(q))),
                            lk := v.lk.(holder := None)))
  {
    s' := Advance(s, Go);
  }

  lemma ClearsCount(s: State, q: nat, v: Scene) returns (s': State)
    requires Shows(s, q, v) && v.running == READER && v.r.pc == Zero(QueueLock(q))
    ensures Shows(s', q, v.(r := v.r.(pc := Up(QueueLock(q))), lk := v.lk.(repeat := 0)))
  {
    s' := Advance(s, Go);
  }

  /** ... and sema_up, which makes the writer ready and leaves the lock free. */
  lemma GivesUp(s: State, q: nat, v: Scene) returns (s': State)
    requires Shows(s, q, v) && v.running == READER && v.r.pc == Up(QueueLock(q)) && v.r.call == GetChar(q)
    requires v.lk.value == 0 && v.lk.waiters == [WRITER] && v.w.status == Blocked && v.ready == [MAIN]
    ensures Shows(s', q, v.(r := v.r.(pc := IoTest), lk := v.lk.(value := 1, owner := None, waiters := []),
                            w := v.w.(status := Ready), ready := [WRITER, MAIN]))
  {
    s' := Advance(s, Go);
  }

  /** It takes its byte ... */
  lemma TakesByte(s: State, q: nat, v: Scene) returns (s': State)
    requires Shows(s, q, v) && v.running == READER && v.r.pc == IoTest && v.r.call == GetChar(q) && !v.intr
    requires v.head == 63 && v.tail == 0
    ensures Shows(s', q, v.(r := v.r.(pc := Client, call := NoCall), tail := 1))
  {
    s' := Advance(s, Go);
  }

  /** ... and, still uninterrupted, all the others. */
  lemma {:induction false} Drains(s: State, q: nat, v: Scene) returns (s': State)
    requires Shows(s, q, v) && v.running == READER && v.r.pc == Client && v.r.call == NoCall && !v.intr
    requires v.head == 63 && 0 < v.tail <= 63
    ensures Shows(s', q, v.(tail := 63))
    decreases 63 - v.tail
  {
    if v.tail == 63 {
      s' := s;
    } else {
      s' := Gets(s, q, v);
      assert v.r.(call := NoCall) == v.r;
      s' := Drains(s', q, v.(tail := v.tail + 1));
    }
  }

  /** The first half: the reader asleep, holding the lock, and the writer waiting for it before a
      full ring. */
  lemma RingFilled(q: nat) returns (s: State, v: Scene)
    ensures Shows(s, q, v) && v.running == READER && v.ready == [MAIN] && !v.intr && v.head == 63 && v.tail == 0
    ensures v.r.pc == IoSlept && v.r.call == GetChar(q) && v.r.status == Running && Depth(v.r, QueueLock(q)) == 1
    ensures v.w.pc == Retest(QueueLock(q)) && v.w.status == Blocked && v.w.call == PutChar(q, 'a') && !v.w.savedIf
    ensures v.lk == Lock(0, [WRITER], Some(READER), 1, Some(READER)) && v.consumer == None && v.main.savedIf
  {
    var s0, v0 := ReaderOn(q);
    s0 := Masks(s0, q, v0);
    var s1, v1 := FallsAsleep(s0, q, v0.(intr := false));
    s1 := Masks(s1, q, v1);
    v1 := v1.(intr := false);
    s1 := PutsFirst(s1, q, v1);
    v1 := v1.(w := v1.w.(call := NoCall), head := 1, consumer := None,
              r := v1.r.(status := Ready), ready := [READER, MAIN]);
    s1 := Fills(s1, q, v1);
    v1 := v1.(head := 63);
    s1 := WantsLock(s1, q, v1);
    v1 := v1.(w := v1.w.(call := PutChar(q, 'a'), pc := Down(QueueLock(q))));
    s := Waits(s1, q, v1, READER);
    v := v1.(w := Th(s.threads, WRITER), lk := v1.lk.(waiters := [WRITER]), running := READER, ready := v1.ready[1..],
             r := v1.r.(status := Running), main := v1.main, intr := v1.r.savedIf);
  }

  /** The second half: the reader empties the ring and takes the lock again. */
  lemma RingDrained(q: nat) returns (s: State, v: Scene)
    ensures Shows(s, q, v) && v.running == READER && v.r.pc == Client && !v.intr && v.r.status == Running
    ensures v.head == v.tail == 63 && v.lk == FRESH_LOCK && v.consumer == None && v.ready == [WRITER, MAIN]
    ensures Depth(v.r, QueueLock(q)) == 0 && v.main.savedIf
    ensures v.w.pc == Retest(QueueLock(q)) && v.w.status == Ready && v.w.call == PutChar(q, 'a') && !v.w.savedIf
  {
    var l := QueueLock(q);
    var s0, v0 := RingFilled(q);
    s := Resumes(s0, q, v0);
    v := v0.(r := v0.r.(pc := Pc.Drop(l)));
    s := Drops(s, q, v);
    v := v.(r := SetDepth(v.r, l, 0).(pc := Up(l)), lk := v.lk.(holder := None, repeat := 0));
    s := GivesUp(s, q, v);
    v := v.(r := v.r.(pc := IoTest), lk := v.lk.(value := 1, owner := None, waiters := []),
            w := v.w.(status := Ready), ready := [WRITER, MAIN]);
    s := TakesByte(s, q, v);
    v := v.(r := v.r.(pc := Client, call := NoCall), tail := 1);
    s := Drains(s, q, v);
    v := v.(tail := 63);
  }

  /** From boot, with every rule kept, the two can come to a standoff over an empty ring, in which
      there is room for the writer's byte, and no other thread writes. */
  lemma StandoffHappens(q: nat) returns (s: State)
    ensures Reachable(s) && Stuck(s, q, READER, WRITER) && SoleWriter(s, q, WRITER)
    ensures Empty(Qu(s.queues, q)) && !Full(Qu(s.queues, q))
  {
    var s0, v0 := RingDrained(q);
    var s1, v1 := FallsAsleep(s0, q, v0);
    s := Waits(s1, q, v1, MAIN);
    ReachableInv(s);
    forall t: Tid | t != WRITER ensures !Th(s.threads, t).call.PutChar? {
      assert t == MAIN || t == READER || t > WRITER;
    }
  }

  /** And then both sleep for ever, whatever else happens, unless somebody else writes to q. */
  lemma StandoffLasts(q: nat) returns (s: State)
    ensures Reachable(s) && Empty(Qu(s.queues, q))
    ensures forall actions :: Obeys(s, actions) && NoWrites(actions, q) ==>
      Run(s, actions).Next? && Stuck(Run(s, actions).s, q, READER, WRITER)
  {
    s := StandoffHappens(q);
    ReachableInv(s);
    forall actions | Obeys(s, actions) && NoWrites(actions, q)
      ensures Run(s, actions).Next? && Stuck(Run(s, actions).s, q, READER, WRITER)
    {
      StuckForever(s, actions, q, READER, WRITER);
    }
  }
}
