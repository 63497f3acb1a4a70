/** timer.c: how long a thread waits for its turn, and how long a full round takes, when
    nothing but clock interrupts happens. */
module RoundRobin {
  import opened KernelState
  import opened Scheduling
  import opened KernelSystem
  import opened KernelInvariant
  import opened KernelSafety

  /** n clock interrupts in a row. */
  function Ticks(s: State, n: nat): Outcome
    decreases n
  {
    if n == 0 then Next(s) else
    var o := ClockTick(s);
    if o.Panic? then o else Ticks(o.s, n - 1)
  }

  /** How many of the next n clock interrupts interrupt t. */
  function Share(s: State, n: nat, t: Tid): nat
    decreases n
  {
    if n == 0 then 0 else
    (if s.running == t then 1 else 0) +
    (var o := ClockTick(s); if o.Panic? then 0 else Share(o.s, n - 1, t))
  }

  /** Interrupts are on at each of the next n clock interrupts, so that they can happen. */
  predicate Ticking(s: State, n: nat)
    decreases n
  {
    n == 0 || (s.intr && (ClockTick(s).Next? ==> Ticking(ClockTick(s).s, n - 1)))
  }

  /** One thread runs, and the others in the list are ready, each once: part of the invariant. */
  ghost predicate Lined(s: State) {
    && s.running !in s.ready && NoDup(s.ready) && s.running in s.threads && Me(s).status == Running
    && forall t: Tid :: t in s.ready ==> t in s.threads && Th(s.threads, t).status == Ready
  }

  /** Everybody runs with interrupts on, and always has. */
  ghost predicate Rota(s: State) {
    Lined(s) && s.intr && Me(s).savedIf && forall t: Tid :: t in s.ready ==> Th(s.threads, t).savedIf
  }

  /** The sum of ticks + 1 over the threads of q. */
  function Quanta(ts: map<Tid, Thread>, q: seq<Tid>): nat {
    if q == [] then 0 else Th(ts, q[0]).ticks + 1 + Quanta(ts, q[1..])
  }

  /** The state after the running thread's quantum: it goes to the end of the list, and the flag
      is that of the thread dispatched. */
  function Turned(s: State): State {
    var queue := s.ready + [s.running];
    var queued := SetTh(s.threads, s.running, Me(s).(status := Ready, ticks := Me(s).priority, savedIf := s.intr));
    var next := Th(queued, queue[0]).(status := Running);
    s.(threads := SetTh(queued, queue[0], next), ready := queue[1..], running := queue[0], intr := next.savedIf)
  }

  lemma {:induction false} TicksAdd(s: State, a: nat, b: nat, t: Tid)
    requires Ticks(s, a).Next?
    ensures Ticks(s, a + b) == Ticks(Ticks(s, a).s, b)
    ensures Share(s, a + b, t) == Share(s, a, t) + Share(Ticks(s, a).s, b, t)
    ensures Ticking(s, a + b) <==> Ticking(s, a) && Ticking(Ticks(s, a).s, b)
    decreases a
  {
    if a != 0 {
      TicksAdd(ClockTick(s).s, a - 1, b, t);
    }
  }

  lemma {:induction false} WithinQuantum(s: State, n: nat)
    requires s.running in s.threads && n <= Me(s).ticks
    ensures Ticks(s, n) == Next(SetMe(s, Me(s).(ticks := Me(s).ticks - n)))
    ensures forall t: Tid :: Share(s, n, t) == if t == s.running then n else 0
    ensures Ticking(s, n) <==> n == 0 || s.intr
    decreases n
  {
    if n != 0 {
      var s1 := ClockTick(s).s;
      WithinQuantum(s1, n - 1);
      SetThTwice(s.threads, s.running, Me(s1), Me(s).(ticks := Me(s).ticks - n));
    } else {
      assert s.threads == s.threads[s.running := Me(s)];
    }
  }

  /** The interrupt that finds no ticks left. */
  lemma LastTick(s: State)
    requires Me(s).status == Running && s.running !in s.ready && Me(s).ticks == 0
    ensures ClockTick(s) == Next(Turned(s))
  {
    var flagged := Me(s).(savedIf := s.intr);
    SetThTwice(s.threads, s.running, flagged, flagged.(status := Ready, ticks := Me(s).priority));
  }

  /** A whole quantum and the switch after it. */
  lemma Turn(s: State, t: Tid)
    requires Lined(s)
    ensures Ticks(s, Me(s).ticks + 1) == Next(Turned(s)) && (Ticking(s, Me(s).ticks + 1) <==> s.intr)
    ensures Share(s, Me(s).ticks + 1, t) == if t == s.running then Me(s).ticks + 1 else 0
  {
    var n := Me(s).ticks;
    WithinQuantum(s, n);
    var s1 := Ticks(s, n).s;
    TicksAdd(s, n, 1, t);
    assert Me(s1).ticks == 0 && Share(s1, 1, t) == (if t == s.running then 1 else 0) + Share(ClockTick(s1).s, 0, t) by {
      LastTick(s1);
    }
    TurnedAfter(s, n);
  }

  lemma TurnedAfter(s: State, n: nat)
    requires Lined(s) && n == Me(s).ticks && Ticks(s, n) == Next(SetMe(s, Me(s).(ticks := 0)))
    ensures Ticks(Ticks(s, n).s, 1) == Next(Turned(s))
  {
    var s1 := Ticks(s, n).s;
    LastTick(s1);
    SetThTwice(s.threads, s.running, Me(s1), Me(s).(status := Ready, ticks := Me(s).priority, savedIf := s.intr));
    assert Turned(s1) == Turned(s);
  }

  lemma TurnedRota(s: State)
    requires Rota(s)
    ensures Rota(Turned(s))
  {
    TurnedLined(s);
    var queue := s.ready + [s.running];
    assert queue[0] in queue;
    forall t: Tid | t in Turned(s).ready ensures Th(Turned(s).threads, t).savedIf {
      assert t in queue;
    }
  }

  lemma TurnedLined(s: State)
    requires Lined(s)
    ensures Lined(Turned(s))
  {
    var queue := s.ready + [s.running];
    var s' := Turned(s);
    assert NoDup(queue);
    assert NoDup(s'.ready);
    assert s'.running !in s'.ready;
    forall t: Tid | t in s'.ready
      ensures t in s'.threads && Th(s'.threads, t).status == Ready
    {
      assert t in queue;
    }
    assert queue[0] in queue;
  }

  lemma {:induction false} QuantaKept(ts: map<Tid, Thread>, ts': map<Tid, Thread>, q: seq<Tid>)
    requires forall t: Tid :: t in q ==> Th(ts', t).ticks == Th(ts, t).ticks
    ensures Quanta(ts', q) == Quanta(ts, q)
  {
    if q != [] {
      assert q[0] in q;
      QuantaKept(ts, ts', q[1..]);
    }
  }

  /** The clock interrupt at which the thread at ready index k gets the CPU. */
  function Latency(s: State, k: nat): nat
    requires k < |s.ready|
  {
    Me(s).ticks + 1 + Quanta(s.threads, s.ready[..k])
  }

  lemma LatencyTurned(s: State, k: nat)
    requires Lined(s) && 0 < k < |s.ready|
    ensures |Turned(s).ready| == |s.ready| && forall i :: 0 < i <= k ==> Turned(s).ready[i - 1] == s.ready[i]
    ensures Turned(s).running == s.ready[0] && Turned(s).intr == Th(s.threads, s.ready[0]).savedIf
    ensures forall i :: 0 < i <= k ==> Th(Turned(s).threads, s.ready[i]) == Th(s.threads, s.ready[i])
    ensures Latency(s, k) == Me(s).ticks + 1 + Latency(Turned(s), k - 1)
  {
    var s' := Turned(s);
    var front := s.ready[1..k];
    assert s'.ready[..k - 1] == front && s.ready[..k] == [s.ready[0]] + front;
    assert s.ready[..k][1..] == front;
    forall i | 0 < i <= k ensures Th(s'.threads, s.ready[i]) == Th(s.threads, s.ready[i]) {
      assert s.ready[i] in s.ready && s.ready[i] != s.ready[0];
    }
    forall t: Tid | t in front ensures Th(s'.threads, t).ticks == Th(s.threads, t).ticks {
      var i :| 0 <= i < |front| && front[i] == t;
      assert s.ready[i + 1] == t;
    }
    QuantaKept(s.threads, s'.threads, front);
  }

  lemma BeforeTurn(s: State, m: nat)
    requires Lined(s) && m <= Me(s).ticks
    ensures Ticks(s, m).Next? && Ticks(s, m).s.running == s.running
  {
    WithinQuantum(s, m);
  }

  lemma AfterTurn(s: State, m: nat, later: nat, t: Tid)
    requires Lined(s) && m == Me(s).ticks + 1 + later
    ensures Ticks(s, m) == Ticks(Turned(s), later) && (Ticking(s, m) <==> s.intr && Ticking(Turned(s), later))
    ensures Share(s, m, t) == (if t == s.running then Me(s).ticks + 1 else 0) + Share(Turned(s), later, t)
  {
    Turn(s, t);
    TicksAfter(s, Me(s).ticks + 1, later, t, Turned(s));
  }

  lemma TicksAfter(s: State, n: nat, later: nat, t: Tid, s': State)
    requires Ticks(s, n) == Next(s')
    ensures Ticks(s, n + later) == Ticks(s', later)
    ensures Share(s, n + later, t) == Share(s, n, t) + Share(s', later, t)
    ensures Ticking(s, n + later) <==> Ticking(s, n) && Ticking(s', later)
  {
    TicksAdd(s, n, later, t);
  }

  /** Everybody before ready index k will run with interrupts on. */
  predicate FlagsOn(s: State, k: nat)
    requires k <= |s.ready|
  {
    forall i :: 0 <= i < k ==> Th(s.threads, s.ready[i]).savedIf
  }

  lemma {:induction false} OnTime(s: State, k: nat)
    requires Lined(s) && k < |s.ready|
    ensures Ticks(s, Latency(s, k)).Next? && Ticks(s, Latency(s, k)).s.running == s.ready[k]
    ensures Ticking(s, Latency(s, k)) <==> s.intr && FlagsOn(s, k)
    decreases k
  {
    TurnedLined(s);
    if k == 0 {
      AfterTurn(s, Latency(s, 0), 0, 0);
    } else {
      LatencyTurned(s, k);
      AfterTurn(s, Latency(s, k), Latency(Turned(s), k - 1), 0);
      OnTime(Turned(s), k - 1);
      FlagsTurned(s, k);
    }
  }

  lemma FlagsTurned(s: State, k: nat)
    requires Lined(s) && 0 < k < |s.ready| && |Turned(s).ready| == |s.ready|
    ensures FlagsOn(s, k) <==> Turned(s).intr && FlagsOn(Turned(s), k - 1)
  {
    LatencyTurned(s, k);
    var s' := Turned(s);
    if s'.intr && FlagsOn(s', k - 1) {
      forall i | 0 <= i < k ensures Th(s.threads, s.ready[i]).savedIf {
        assert i > 0 ==> s'.ready[i - 1] == s.ready[i];
      }
    }
    if FlagsOn(s, k) {
      forall i | 0 <= i < k - 1 ensures Th(s'.threads, s'.ready[i]).savedIf {
        assert s'.ready[i + 1 - 1] == s.ready[i + 1];
      }
    }
  }

  lemma {:induction false} NotEarlier(s: State, k: nat, m: nat)
    requires Lined(s) && k < |s.ready| && m < Latency(s, k)
    ensures Ticks(s, m).Next? && Ticks(s, m).s.running != s.ready[k]
    decreases k
  {
    if m <= Me(s).ticks {
      BeforeTurn(s, m);
      assert s.ready[k] in s.ready;
    } else {
      var later := m - Me(s).ticks - 1;
      AfterTurn(s, m, later, 0);
      TurnedLined(s);
      LatencyTurned(s, k);
      NotEarlier(Turned(s), k - 1, later);
    }
  }

  /** n clock interrupts, as actions. */
  function TickRun(n: nat): seq<Action> {
    seq(n, _ => Tick)
  }

  lemma TickRunFirst(n: nat)
    requires n > 0
    ensures TickRun(n) != [] && TickRun(n)[0] == Tick && TickRun(n)[1..] == TickRun(n - 1)
  {
  }

  /** The interrupts counted here are steps of the step system. */
  lemma {:induction false} TicksAreARun(s: State, n: nat)
    ensures Run(s, TickRun(n)) == Ticks(s, n) && (Obeys(s, TickRun(n)) <==> Ticking(s, n))
    decreases n
  {
    if n != 0 {
      TickRunFirst(n);
      assert Step(s, Tick) == ClockTick(s);
      if ClockTick(s).Next? {
        TicksAreARun(ClockTick(s).s, n - 1);
      }
    }
  }

  /** With nothing but clock interrupts, the thread at ready index k is dispatched by interrupt
      number Latency(s, k) and by no earlier one; and that many interrupts can come if and only
      if interrupts are on and everybody before it gets them on: a thread woken by sema_up or by
      a queue, which stands in front, has them off until it has restored them itself. */
  lemma DispatchedAt(s: State, k: nat)
    requires Lined(s) && k < |s.ready|
    ensures Obeys(s, TickRun(Latency(s, k))) <==> s.intr && FlagsOn(s, k)
    ensures Run(s, TickRun(Latency(s, k))).Next? && Run(s, TickRun(Latency(s, k))).s.running == s.ready[k]
    ensures forall m: nat :: m < Latency(s, k) ==>
      Run(s, TickRun(m)).Next? && Run(s, TickRun(m)).s.running != s.ready[k]
  {
    OnTime(s, k);
    TicksAreARun(s, Latency(s, k));
    forall m: nat | m < Latency(s, k) ensures Run(s, TickRun(m)).Next? && Run(s, TickRun(m)).s.running != s.ready[k] {
      NotEarlier(s, k, m);
      TicksAreARun(s, m);
    }
  }

  /** So it is in every state the kernel can be in. */
  lemma ReachableDispatch(s: State, k: nat)
    requires Reachable(s) && s.intr && k < |s.ready| && FlagsOn(s, k)
    ensures Obeys(s, TickRun(Latency(s, k))) && Run(s, TickRun(Latency(s, k))).Next?
    ensures Run(s, TickRun(Latency(s, k))).s.running == s.ready[k]
    ensures forall m: nat :: m < Latency(s, k) ==>
      Run(s, TickRun(m)).Next? && Run(s, TickRun(m)).s.running != s.ready[k]
  {
    ReachableInv(s);
    assert Th(s.threads, s.running).status == Running;
    DispatchedAt(s, k);
  }

  // ----- a full round

  /** The threads of s with `order` as the rota: its first thread runs, every other waits,
      everybody has a full quantum. */
  function Arranged(s: State, order: seq<Tid>): State
    requires order != []
  {
    var ts := map t | t in s.threads :: if t !in order then s.threads[t] else
      s.threads[t].(status := if t == order[0] then Running else Ready, savedIf := true,
                    ticks := s.threads[t].priority);
    s.(threads := ts, ready := order[1..], running := order[0], intr := true)
  }

  predicate Fresh(s: State) {
    Me(s).ticks == Me(s).priority && forall t :: t in s.ready ==> Th(s.threads, t).ticks == Th(s.threads, t).priority
  }

  function Priorities(s: State, q: seq<Tid>): nat {
    if q == [] then 0 else Th(s.threads, q[0]).priority + 1 + Priorities(s, q[1..])
  }

  lemma ArrangedSelf(s: State)
    requires Rota(s) && Fresh(s)
    ensures Arranged(s, [s.running] + s.ready) == s
  {
    var order := [s.running] + s.ready;
    forall t | t in s.threads ensures Arranged(s, order).threads[t] == s.threads[t] {
      if t != s.running && t in order {
        assert t in s.ready;
        assert Th(s.threads, t).ticks == Th(s.threads, t).priority;
      }
    }
    assert order[1..] == s.ready;
  }

  ghost predicate Order(s: State, order: seq<Tid>) {
    order != [] && NoDup(order) && forall t: Tid :: t in order ==> t in s.threads
  }

  lemma ArrangedRota(s: State, order: seq<Tid>)
    requires Order(s, order)
    ensures Rota(Arranged(s, order)) && Me(Arranged(s, order)).ticks == Th(s.threads, order[0]).priority
  {
    assert order[0] in order && order[0] !in order[1..];
    forall t: Tid | t in order[1..] ensures t in order {}
  }

  lemma ArrangedTurn(s: State, order: seq<Tid>)
    requires Order(s, order)
    ensures Turned(Arranged(s, order)) == Arranged(s, order[1..] + [order[0]])
  {
    var a, next := Arranged(s, order), order[1..] + [order[0]];
    var b := Arranged(s, next);
    assert order[0] in order && order[0] !in order[1..];
    forall t ensures t in next <==> t in order {}
    assert Turned(a).threads.Keys == b.threads.Keys;
    forall t | t in b.threads ensures Turned(a).threads[t] == b.threads[t] {
      assert Th(Turned(a).threads, t) == b.threads[t];
    }
  }

  /** The number of times t occurs in q, weighted with its quantum. */
  function Granted(s: State, q: seq<Tid>, t: Tid): nat {
    if q == [] then 0 else (if q[0] == t then Th(s.threads, t).priority + 1 else 0) + Granted(s, q[1..], t)
  }

  lemma ArrangedTicks(s: State, order: seq<Tid>, m: nat, later: nat, t: Tid)
    requires Order(s, order) && m == Th(s.threads, order[0]).priority + 1 + later
    ensures var next := Arranged(s, order[1..] + [order[0]]);
      && Ticks(Arranged(s, order), m) == Ticks(next, later)
      && Share(Arranged(s, order), m, t) == (if t == order[0] then m - later else 0) + Share(next, later, t)
  {
    ArrangedRota(s, order);
    ArrangedTurn(s, order);
    AfterTurn(Arranged(s, order), m, later, t);
  }

  lemma OrderTurned(s: State, order: seq<Tid>)
    requires Order(s, order)
    ensures Order(s, order[1..] + [order[0]])
  {
    assert forall u: Tid :: u in order[1..] ==> u in order;
    assert order[0] in order;
  }

  lemma {:induction false} Turns(s: State, front: seq<Tid>, back: seq<Tid>, t: Tid)
    requires Order(s, front + back)
    ensures Ticks(Arranged(s, front + back), Priorities(s, front)) == Next(Arranged(s, back + front))
    ensures Share(Arranged(s, front + back), Priorities(s, front), t) == Granted(s, front, t)
    decreases |front|
  {
    var order := front + back;
    if front == [] {
      assert front + back == back + front;
    } else {
      var x, rest := front[0], front[1..];
      assert order[0] == x && order[1..] + [x] == rest + (back + [x]);
      assert back + [x] + rest == back + front;
      ArrangedTicks(s, order, Priorities(s, front), Priorities(s, rest), t);
      assert Order(s, rest + (back + [x])) by { OrderTurned(s, order); }
      Turns(s, rest, back + [x], t);
    }
  }

  lemma AllTurns(s: State, order: seq<Tid>, t: Tid)
    requires Order(s, order)
    ensures Ticks(Arranged(s, order), Priorities(s, order)) == Next(Arranged(s, order))
    ensures Share(Arranged(s, order), Priorities(s, order), t) == Granted(s, order, t)
  {
    assert order + [] == order;
    assert [] + order == order;
    Turns(s, order, [], t);
  }

  lemma {:induction false} GrantedOnce(s: State, q: seq<Tid>, t: Tid)
    requires NoDup(q)
    ensures Granted(s, q, t) == if t in q then Th(s.threads, t).priority + 1 else 0
  {
    if q != [] {
      assert NoDup(q[1..]);
      GrantedOnce(s, q[1..], t);
      if t == q[0] {
        assert t !in q[1..];
      }
    }
  }

  lemma TickedRota(s: State)
    requires Rota(s)
    ensures ClockTick(s).Next? && Rota(ClockTick(s).s)
  {
    if Me(s).ticks == 0 {
      LastTick(s);
      TurnedRota(s);
    }
  }

  lemma {:induction false} RotaTicks(s: State, n: nat)
    requires Rota(s)
    ensures Ticking(s, n)
    decreases n
  {
    if n != 0 {
      TickedRota(s);
      RotaTicks(ClockTick(s).s, n - 1);
    }
  }

  /** If everybody has a full quantum, the whole state recurs after exactly the sum of
      priority + 1 clock interrupts, and in that time each thread was interrupted priority + 1
      times. */
  lemma RoundRecurs(s: State)
    requires Rota(s) && Fresh(s)
    ensures var round := Priorities(s, [s.running] + s.ready);
      && Obeys(s, TickRun(round)) && Run(s, TickRun(round)) == Next(s)
      && forall t: Tid :: t == s.running || t in s.ready ==> Share(s, round, t) == Th(s.threads, t).priority + 1
  {
    var round := Priorities(s, [s.running] + s.ready);
    RoundBack(s);
    RoundRuns(s, round);
    forall t: Tid | t == s.running || t in s.ready ensures Share(s, round, t) == Th(s.threads, t).priority + 1 {
      OneShare(s, t);
    }
  }

  lemma RoundBack(s: State)
    requires Rota(s) && Fresh(s)
    ensures Ticks(s, Priorities(s, [s.running] + s.ready)) == Next(s)
  {
    ArrangedSelf(s);
    AllTurns(s, [s.running] + s.ready, 0);
  }

  lemma RoundRuns(s: State, n: nat)
    requires Rota(s)
    ensures Obeys(s, TickRun(n)) && Run(s, TickRun(n)) == Ticks(s, n)
  {
    RotaTicks(s, n);
    TicksAreARun(s, n);
  }

  lemma OneShare(s: State, t: Tid)
    requires Rota(s) && Fresh(s) && (t == s.running || t in s.ready)
    ensures Share(s, Priorities(s, [s.running] + s.ready), t) == Th(s.threads, t).priority + 1
  {
    var order := [s.running] + s.ready;
    ArrangedSelf(s);
    AllTurns(s, order, t);
    GrantedOnce(s, order, t);
  }
}
