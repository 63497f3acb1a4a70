/** The whole kernel in its own form: the scheduler's structures, every lock and every queue.

    One call of `Step` is one step of the machine. The method looks at where the running thread
    stands, as the CPU does, and runs the code there on the structures; the contract ties what
    they then hold to the step system. From boot on, no step fails. */
module KernelObject {
  import opened Common
  import opened KernelState
  import opened SchedulerObject
  import opened LockObject
  import opened QueueObject
  import opened KernelSystem
  import opened KernelPointers
  import opened KernelInvariant
  import Scheduling
  import Locking
  import IoQueues
  import KernelSafety

  /** The parts of the kernel's validity; naming them keeps a part folded where it is not used. */
  datatype Section = Threads | AllLocks | AllQueues

  class Kernel {
    const sched: Scheduler
    var locks: map<LockId, LockStruct>
    var queues: map<nat, IoQueueStruct>
    ghost var lockStates: map<LockId, Lock>
    ghost var queueStates: map<nat, Queue>
    ghost var booting: bool
    /** Whose buffer an array is. */
    ghost var bufs: map<array<char>, nat>
    /** Every structure and buffer. */
    ghost var repr: set<object>

    /** What the structures hold together. */
    ghost function S(): State
      reads this, sched
    {
      State(sched.threads, lockStates, queueStates, sched.ready, sched.running, sched.intr, booting)
    }

    ghost predicate LockAt(lock: LockStruct, l: LockId, lk: Lock)
      reads `repr, lock
    {
      lock in repr && lock.id == l && lock.Value() == lk
    }

    ghost predicate LocksAre(but: Option<LockId>)
      reads `repr, `locks, `lockStates, repr
    {
      && locks.Keys == lockStates.Keys
      && forall l :: l in locks ==>
        locks[l] in repr && locks[l].id == l && (Some(l) == but || LockAt(locks[l], l, lockStates[l]))
    }

    ghost predicate QueueAt(queue: IoQueueStruct, q: nat, qu: Queue)
      reads `repr, queue, queue.buf
    {
      queue in repr && queue.buf in repr && queue.buf.Length == BUFSIZE && queue.Value() == qu
    }

    ghost predicate QueueIs(queue: IoQueueStruct, q: nat)
      reads `bufs, `locks
    {
      && queue.id == q && queue.buf in bufs && bufs[queue.buf] == q
      && QueueLock(q) in locks && queue.lock == locks[QueueLock(q)]
    }

    ghost predicate QueuesAre(but: Option<nat>)
      reads `repr, `locks, `queues, `queueStates, `bufs, repr
    {
      && queues.Keys == queueStates.Keys
      && forall q :: q in queues ==>
           && queues[q] in repr && queues[q].buf in repr && QueueIs(queues[q], q)
           && (Some(q) == but || QueueAt(queues[q], q, queueStates[q]))
    }

    ghost predicate ThreadsAre()
      reads `repr, sched, repr
    {
      sched in repr && sched.structs <= repr && sched.Valid()
    }

    ghost predicate Holds(p: Section, lock: Option<LockId>, queue: Option<nat>)
      reads this, sched, repr
    {
      match p
      case Threads => ThreadsAre() && this !in repr
      case AllLocks => LocksAre(lock)
      case AllQueues => QueuesAre(queue)
    }

    /** Valid, but perhaps for the record of one lock or of one queue. */
    ghost predicate Almost(lock: Option<LockId>, queue: Option<nat>)
      reads this, sched, repr
    {
      forall p: Section :: Holds(p, lock, queue)
    }

    ghost predicate Valid()
      reads this, sched, repr
    {
      Almost(None, None)
    }

    /** Nothing but main, before any lock_init. */
    constructor ()
      ensures Valid() && fresh(repr) && S() == BOOT && Inv(S(), true) && Known(S())
    {
      sched := new Scheduler();
      locks, queues, lockStates, queueStates := map[], map[], map[], map[];
      booting, bufs := true, map[];
      new;
      repr := {sched} + sched.structs;
      Seal(None, None);
      BootKnown();
    }

    lemma Seal(lock: Option<LockId>, queue: Option<nat>)
      requires this !in repr && ThreadsAre() && LocksAre(lock) && QueuesAre(queue)
      ensures Almost(lock, queue)
    {
    }

    lemma Whole()
      requires Holds(Threads, None, None) && Holds(AllLocks, None, None) && Holds(AllQueues, None, None)
      ensures Valid()
    {
    }

    lemma Unseal(lock: Option<LockId>, queue: Option<nat>)
      requires Almost(lock, queue)
      ensures this !in repr && ThreadsAre() && LocksAre(lock) && QueuesAre(queue)
    {
      assert Holds(Threads, lock, queue) && Holds(AllLocks, lock, queue) && Holds(AllQueues, lock, queue);
    }

    /** What is not in the scheduler's structures. */
    ghost function World(): State
      reads this
    {
      State(map[], lockStates, queueStates, [], MAIN, false, booting)
    }

    // ----- one lock

    /** A lock's view of the whole state, and the state. */
    lemma LockView(l: LockId)
      requires Valid() && l in locks
      ensures sched.Valid() && locks[l].id == l && locks[l].At(sched, World()) == S()
      ensures locks[l] in repr && sched in repr && sched.structs <= repr && this !in repr
    {
      Unseal(None, None);
      assert LockAt(locks[l], l, lockStates[l]);
      assert lockStates[l := lockStates[l]] == lockStates;
    }

    lemma WaitersThere(l: LockId)
      requires Valid() && Linked(S()) && l in locks
      ensures locks[l].WaitersOk(sched)
    {
      Unseal(None, None);
      assert Points(S(), Waiters) && sched.Holds(Structures);
      assert LockAt(locks[l], l, Lk(S().locks, l));
    }

    /** What a call on one lock leaves alone. */
    twostate lemma AfterLock(l: LockId)
      requires unchanged(this) && old(Valid()) && l in locks && ThreadsAre()
      requires forall k :: k in locks && locks[k] != locks[l] ==> locks[k].Value() == old(locks[k].Value())
      requires forall q :: q in queues ==> unchanged(queues[q]) && unchanged(queues[q].buf)
      ensures Almost(Some(l), None)
    {
      assert old(Holds(AllLocks, None, None)) && old(Holds(AllQueues, None, None));
      assert old(Holds(Threads, None, None));
      forall k | k in locks && k != l ensures LockAt(locks[k], k, lockStates[k]) {
        assert old(LockAt(locks[k], k, lockStates[k]));
      }
      forall q | q in queues ensures QueueAt(queues[q], q, queueStates[q]) {
        assert old(QueueAt(queues[q], q, queueStates[q]));
      }
      Seal(Some(l), None);
    }

    method OnLock(l: LockId) returns (v: Verdict)
      requires Valid() && Linked(S()) && l in locks && AtLock(Me(S()).pc) && Me(S()).pc.l == l
      modifies locks[l], sched, sched.structs
      ensures Almost(Some(l), None) && Is(GoStep(old(S())), v, locks[l].At(sched, World()))
    {
      LockView(l);
      WaitersThere(l);
      v := locks[l].Go(sched, World());
      AfterLock(l);
    }

    /** Brings `lockStates` up to date after writing to lock l. */
    ghost method LockWritten(l: LockId)
      requires Almost(Some(l), None) && l in locks
      modifies `lockStates
      ensures Valid() && S() == locks[l].At(sched, old(World()))
    {
      Unseal(Some(l), None);
      assert locks[l].id == l;
      lockStates := SetLk(lockStates, l, locks[l].Value());
      forall k | k in locks ensures LockAt(locks[k], k, lockStates[k]) {
        assert k != l ==> old(LockAt(locks[k], k, lockStates[k]));
      }
      Seal(None, None);
    }

    /** The running thread's next step inside lock_acquire or lock_release. */
    method GoLock(l: LockId) returns (v: Verdict)
      requires Valid() && Linked(S()) && l in locks && AtLock(Me(S()).pc) && Me(S()).pc.l == l
      modifies locks[l], sched, sched.structs, `lockStates
      ensures Valid() && Is(GoStep(old(S())), v, S())
    {
      v := OnLock(l);
      LockWritten(l);
    }

    // ----- only the scheduler's structures

    /** What a call that writes no lock and no queue leaves alone. */
    twostate lemma AfterThreads()
      requires locks == old(locks) && queues == old(queues) && lockStates == old(lockStates)
      requires queueStates == old(queueStates) && bufs == old(bufs)
      requires old(repr) <= repr && this !in repr && old(Valid()) && ThreadsAre()
      requires forall l :: l in locks ==> unchanged(locks[l])
      requires forall q :: q in queues ==> unchanged(queues[q]) && unchanged(queues[q].buf)
      ensures Valid()
    {
      assert old(Holds(AllLocks, None, None)) && old(Holds(AllQueues, None, None));
      assert old(Holds(Threads, None, None));
      forall l | l in locks ensures LockAt(locks[l], l, lockStates[l]) {
        assert old(LockAt(locks[l], l, lockStates[l]));
      }
      forall q | q in queues ensures QueueAt(queues[q], q, queueStates[q]) {
        assert old(QueueAt(queues[q], q, queueStates[q]));
      }
      Seal(None, None);
    }

    /** lock_acquire is called. */
    method CallAcquire(l: LockId) returns (v: Verdict)
      requires Valid() && l in locks
      modifies sched, sched.structs
      ensures Valid() && Is(Locking.TestHolder(old(S()), l), v, S())
    {
      LockView(l);
      v := locks[l].TestHolder(sched, World());
      AfterThreads();
      LockView(l);
    }

    /** lock_release is called. */
    method CallRelease(l: LockId) returns (v: Verdict)
      requires Valid() && l in locks
      modifies sched, sched.structs
      ensures Valid() && Is(Locking.Release(old(S()), l), v, S())
    {
      LockView(l);
      v := locks[l].Release(sched, World());
      AfterThreads();
      LockView(l);
    }

    // ----- one queue

    /** A queue's view of the whole state, and the state. */
    lemma QueueView(q: nat)
      requires Valid() && q in queues
      ensures queues[q].Valid(sched) && queues[q].id == q && queues[q].At(sched, World()) == S()
      ensures sched in repr && sched.structs <= repr && queues[q] in repr && queues[q].buf in repr
    {
      Unseal(None, None);
      var l := QueueLock(q);
      assert QueueAt(queues[q], q, queueStates[q]) && QueueIs(queues[q], q);
      assert LockAt(locks[l], l, lockStates[l]);
      assert lockStates[l := lockStates[l]] == lockStates;
      assert queueStates[q := queueStates[q]] == queueStates;
    }

    lemma SlotsThere(q: nat)
      requires Valid() && Linked(S()) && q in queues
      ensures queues[q].SlotsOk(sched)
    {
      Unseal(None, None);
      assert Points(S(), Slots) && sched.Holds(Structures);
      assert QueueAt(queues[q], q, Qu(S().queues, q));
    }

    /** No two queues share anything. */
    lemma Distinct(q: nat)
      requires Valid() && q in queues
      ensures forall p :: p in queues && p != q ==> queues[p] != queues[q] && queues[p].buf != queues[q].buf
    {
      Unseal(None, None);
      assert QueueIs(queues[q], q);
      forall p | p in queues && p != q ensures queues[p] != queues[q] && queues[p].buf != queues[q].buf {
        assert QueueIs(queues[p], p);
      }
    }

    /** What a call on one queue leaves alone. */
    twostate lemma AfterQueue(q: nat)
      requires unchanged(this) && old(Valid()) && q in queues && ThreadsAre()
      requires forall l :: l in locks ==> unchanged(locks[l])
      requires forall p :: p in queues && p != q ==> unchanged(queues[p]) && unchanged(queues[p].buf)
      ensures Almost(None, Some(q))
    {
      assert old(Holds(AllLocks, None, None)) && old(Holds(AllQueues, None, None));
      assert old(Holds(Threads, None, None));
      forall l | l in locks ensures LockAt(locks[l], l, lockStates[l]) {
        assert old(LockAt(locks[l], l, lockStates[l]));
      }
      forall p | p in queues && p != q ensures QueueAt(queues[p], p, queueStates[p]) {
        assert old(QueueAt(queues[p], p, queueStates[p]));
      }
      Seal(None, Some(q));
    }

    /** Brings `queueStates` up to date after writing to queue q. */
    ghost method QueueWritten(q: nat)
      requires Almost(None, Some(q)) && q in queues && queues[q].buf.Length == BUFSIZE
      modifies `queueStates
      ensures Valid() && S() == queues[q].At(sched, old(World()))
    {
      Unseal(None, Some(q));
      ghost var l := QueueLock(q);
      assert QueueIs(queues[q], q) && LockAt(locks[l], l, lockStates[l]);
      assert lockStates[l := lockStates[l]] == lockStates;
      queueStates := SetQu(queueStates, q, queues[q].Value());
      forall p | p in queues ensures QueueAt(queues[p], p, queueStates[p]) {
        assert p != q ==> old(QueueAt(queues[p], p, queueStates[p]));
      }
      Seal(None, None);
    }

    method OnTest(q: nat) returns (v: Verdict)
      requires Valid() && Linked(S()) && q in queues && Me(S()).call != NoCall && Me(S()).call.q == q
      modifies queues[q], queues[q].buf, sched, sched.structs
      ensures Almost(None, Some(q)) && queues[q].buf.Length == BUFSIZE
      ensures Is(IoQueues.CallTest(old(S())), v, queues[q].At(sched, World()))
    {
      QueueView(q);
      SlotsThere(q);
      Distinct(q);
      v := queues[q].CallTest(sched, World());
      AfterQueue(q);
    }

    /** The loop test of the call the running thread is in. */
    method TestQueue(q: nat) returns (v: Verdict)
      requires Valid() && Linked(S()) && q in queues && Me(S()).call != NoCall && Me(S()).call.q == q
      modifies queues[q], queues[q].buf, sched, sched.structs, `queueStates
      ensures Valid() && Is(IoQueues.CallTest(old(S())), v, S())
    {
      v := OnTest(q);
      QueueWritten(q);
    }

    method OnSleep(q: nat) returns (v: Verdict)
      requires Valid() && Linked(S()) && q in queues && Me(S()).call != NoCall && Me(S()).call.q == q
      requires Me(S()).pc in {IoSleep, IoSlept}
      modifies queues[q], sched, sched.structs
      ensures Almost(None, Some(q)) && queues[q].buf.Length == BUFSIZE
      ensures Is(GoStep(old(S())), v, queues[q].At(sched, World()))
    {
      QueueView(q);
      SlotsThere(q);
      Distinct(q);
      v := queues[q].GoSleep(sched, World());
      AfterQueue(q);
    }

    /** Around the sleep in ioq_getchar or ioq_putchar. */
    method SleepQueue(q: nat) returns (v: Verdict)
      requires Valid() && Linked(S()) && q in queues && Me(S()).call != NoCall && Me(S()).call.q == q
      requires Me(S()).pc in {IoSleep, IoSlept}
      modifies queues[q], sched, sched.structs, `queueStates
      ensures Valid() && Is(GoStep(old(S())), v, S())
    {
      v := OnSleep(q);
      QueueWritten(q);
    }

    method OnEnter(call: Call) returns (v: Verdict)
      requires Valid() && Linked(S()) && call != NoCall && call.q in queues
      modifies queues[call.q], queues[call.q].buf, sched, sched.structs
      ensures Almost(None, Some(call.q)) && queues[call.q].buf.Length == BUFSIZE
      ensures Is(IoQueues.CallTest(SetMe(old(S()), Me(old(S())).(pc := IoTest, call := call))), v,
                 queues[call.q].At(sched, World()))
    {
      QueueView(call.q);
      SlotsThere(call.q);
      Distinct(call.q);
      v := queues[call.q].Enter(call, sched, World());
      AfterQueue(call.q);
    }

    /** ioq_getchar or ioq_putchar is called. */
    method EnterQueue(call: Call) returns (v: Verdict)
      requires Valid() && Linked(S()) && call != NoCall && call.q in queues
      modifies queues[call.q], queues[call.q].buf, sched, sched.structs, `queueStates
      ensures Valid() && Is(IoQueues.CallTest(SetMe(old(S()), Me(old(S())).(pc := IoTest, call := call))), v, S())
    {
      v := OnEnter(call);
      QueueWritten(call.q);
    }

    method OnKey(q: nat, byte: char) returns (v: Verdict)
      requires Valid() && Linked(S()) && q in queues
      modifies queues[q], queues[q].buf, sched, sched.structs
      ensures Almost(None, Some(q)) && queues[q].buf.Length == BUFSIZE
      ensures Is(IoQueues.KeyPress(old(S()), q, byte), v, queues[q].At(sched, World()))
    {
      QueueView(q);
      SlotsThere(q);
      Distinct(q);
      v := queues[q].KeyPress(byte, sched, World());
      AfterQueue(q);
    }

    /** The keyboard interrupt. */
    method KeyInterrupt(q: nat, byte: char) returns (v: Verdict)
      requires Valid() && Linked(S()) && q in queues
      modifies queues[q], queues[q].buf, sched, sched.structs, `queueStates
      ensures Valid() && Is(IoQueues.KeyPress(old(S()), q, byte), v, S())
    {
      v := OnKey(q, byte);
      QueueWritten(q);
    }

    // ----- the scheduler alone

    /** The scheduler's view of the whole state is the state. */
    lemma ThreadsView()
      requires Valid()
      ensures sched.Valid() && sched.In(World()) == S() && sched in repr && sched.structs <= repr && this !in repr
      ensures sched.tasks.Keys == sched.threads.Keys
    {
      Unseal(None, None);
      assert sched.Holds(Structures);
    }

    /** The clock interrupt. */
    method ClockInterrupt() returns (v: Verdict)
      requires Valid()
      modifies sched, sched.structs
      ensures Valid() && Is(Scheduling.ClockTick(old(S())), v, S())
    {
      ThreadsView();
      v := sched.ClockInterrupt(World());
      AfterThreads();
    }

    /** intr_set_status. */
    method SetIntr(on: bool) returns (was: bool)
      requires Valid()
      modifies sched, `booting
      ensures Valid() && was == old(S()).intr
      ensures S() == old(S()).(intr := on, booting := old(S()).booting && !on)
    {
      ThreadsView();
      was := sched.SetIntr(on);
      booting := booting && !on;
      AfterThreads();
    }

    /** process_execute, as far as the scheduler is concerned. */
    method Start(t: Tid, prio: nat)
      requires Valid() && Linked(S()) && t !in S().threads
      modifies sched, `repr
      ensures Valid() && fresh(repr - old(repr)) && Scheduling.Spawn(old(S()), t, prio) == Next(S())
    {
      ThreadsView();
      assert Points(S(), Places);
      sched.Start(t, prio, World());
      repr := repr + sched.structs;
      AfterThreads();
    }

    // ----- steps

    /** What the running thread is busy with is there. */
    lemma PlaceThere()
      requires Valid() && Linked(S())
      ensures AtLock(Me(S()).pc) ==> Me(S()).pc.l in locks && locks[Me(S()).pc.l] in repr
      ensures Me(S()).call != NoCall ==>
        Me(S()).call.q in queues && queues[Me(S()).call.q] in repr && queues[Me(S()).call.q].buf in repr
      ensures sched in repr && sched.structs <= repr
    {
      Unseal(None, None);
      assert Points(S(), Places);
      assert AtKnown(Me(S()), S().locks.Keys, S().queues.Keys);
    }

    /** The running thread goes on from where it stands. */
    method Go() returns (v: Verdict)
      requires Valid() && Linked(S())
      modifies this, repr
      ensures Valid() && repr == old(repr) && Is(GoStep(old(S())), v, S())
    {
      PlaceThere();
      ThreadsView();
      var cur := sched.Current();
      if AtLock(cur.pc) {
        v := GoLock(cur.pc.l);
      } else if cur.call == NoCall || cur.pc == Client {
        v := Fine;
      } else if cur.pc == IoTest {
        v := TestQueue(cur.call.q);
      } else {
        v := SleepQueue(cur.call.q);
      }
    }

    /** What an action asks for is there. */
    lemma AskedThere(a: Action)
      requires Valid() && Asked(S(), a)
      ensures a.CallAcquire? ==> Plain(a.l) in locks
      ensures a.CallRelease? ==> Plain(a.l) in locks
      ensures a.CallGet? || a.CallPut? || a.Key? ==> a.q in queues && queues[a.q] in repr && queues[a.q].buf in repr
    {
      Unseal(None, None);
    }

    /** One step of the machine. */
    method Step(a: Action) returns (v: Verdict)
      requires Valid() && Linked(S()) && Asked(S(), a)
      modifies this, repr
      ensures Valid() && fresh(repr - old(repr)) && Is(KernelSystem.Step(old(S()), a), v, S())
    {
      PlaceThere();
      AskedThere(a);
      match a
      case Go => v := Go();
      case CallAcquire(l) => v := CallAcquire(Plain(l));
      case CallRelease(l) => v := CallRelease(Plain(l));
      case CallGet(q) => v := EnterQueue(GetChar(q));
      case CallPut(q, byte) => v := EnterQueue(PutChar(q, byte));
      case CallSetIntr(on) => var was := SetIntr(on); v := Fine;
      case CallStart(t, priority) => Start(t, priority); v := Fine;
      case Tick => v := ClockInterrupt();
      case Key(q, byte) => v := KeyInterrupt(q, byte);
    }

    /** Whole runs: nothing fails, and the structures go through the states of the step system. */
    method Run(actions: seq<Action>)
      requires Valid() && Inv(S(), true) && Known(S()) && Obeys(S(), actions) && Requested(S(), actions)
      modifies this, repr
      ensures Valid() && fresh(repr - old(repr))
      ensures KernelSystem.Run(old(S()), actions) == Next(S()) && Inv(S(), true) && Known(S())
    {
      var k := 0;
      while k < |actions|
        invariant k <= |actions| && Valid() && fresh(repr - old(repr)) && Inv(S(), true) && Known(S())
        invariant Obeys(S(), actions[k..]) && Requested(S(), actions[k..])
        invariant KernelSystem.Run(old(S()), actions) == KernelSystem.Run(S(), actions[k..])
      {
        ghost var s := S();
        InvLinked(s);
        KernelSafety.StepKeeps(s, actions[k]);
        StepKnown(s, actions[k]);
        assert actions[k..][0] == actions[k] && actions[k..][1..] == actions[k + 1..];
        var v := Step(actions[k]);
        k := k + 1;
      }
    }

    // ----- initialization

    twostate lemma OldQueues()
      requires queues == old(queues) && queueStates == old(queueStates) && bufs == old(bufs) && old(repr) <= repr
      requires forall l :: l in old(locks) ==> l in locks && locks[l] == old(locks)[l]
      requires forall q :: q in queues ==> unchanged(queues[q]) && unchanged(queues[q].buf)
      requires old(QueuesAre(None))
      ensures QueuesAre(None)
    {
    }

    /** A new queue concerns the scheduler not at all, ... */
    twostate lemma ThreadsStay(new queue: IoQueueStruct)
      requires old(Valid()) && unchanged(sched) && repr == old(repr) + {queue, queue.buf}
      requires forall o :: o in sched.structs ==> unchanged(o)
      ensures Holds(Threads, None, None)
    {
      assert old(Holds(Threads, None, None));
    }

    /** ... nor the locks, ... */
    twostate lemma LocksStay()
      requires old(Valid()) && locks == old(locks) && lockStates == old(lockStates) && old(repr) <= repr
      requires forall l :: l in locks ==> unchanged(locks[l])
      ensures Holds(AllLocks, None, None)
    {
      assert old(Holds(AllLocks, None, None));
    }

    /** ... nor the other queues. */
    twostate lemma QueuesGrow(q: nat, new queue: IoQueueStruct)
      requires old(Valid()) && q !in old(queues) && locks == old(locks) && old(repr) <= repr
      requires queues == old(queues)[q := queue] && queueStates == SetQu(old(queueStates), q, FRESH_QUEUE)
      requires bufs == old(bufs)[queue.buf := q] && queue.buf !in old(repr)
      requires forall p :: p in old(queues) ==> unchanged(old(queues)[p]) && unchanged(old(queues)[p].buf)
      requires QueueIs(queue, q) && QueueAt(queue, q, FRESH_QUEUE)
      ensures Holds(AllQueues, None, None)
    {
      assert old(Holds(AllQueues, None, None));
      forall p | p in queues ensures QueueIs(queues[p], p) && QueueAt(queues[p], p, queueStates[p]) {
        if p != q {
          assert old(QueueIs(queues[p], p) && QueueAt(queues[p], p, queueStates[p]));
        }
      }
    }

    /** So the structures are whole again once it has joined them. */
    twostate lemma QueueJoins(q: nat, new queue: IoQueueStruct)
      requires old(Valid()) && q !in old(queues) && repr == old(repr) + {queue, queue.buf} && queue.buf !in old(repr)
      requires unchanged(sched) && (forall o :: o in sched.structs ==> unchanged(o))
      requires locks == old(locks) && lockStates == old(lockStates) && forall l :: l in locks ==> unchanged(locks[l])
      requires queues == old(queues)[q := queue] && queueStates == SetQu(old(queueStates), q, FRESH_QUEUE)
      requires forall p :: p in old(queues) ==> unchanged(old(queues)[p]) && unchanged(old(queues)[p].buf)
      requires bufs == old(bufs)[queue.buf := q] && QueueIs(queue, q) && QueueAt(queue, q, FRESH_QUEUE)
      ensures Valid()
    {
      ThreadsStay(queue);
      LocksStay();
      QueuesGrow(q, queue);
      Whole();
    }

    twostate lemma StateGrows(q: nat)
      requires queueStates == SetQu(old(queueStates), q, FRESH_QUEUE) && lockStates == old(lockStates)
      requires unchanged(sched) && booting == old(booting)
      ensures S() == WithQueue(old(S()), q, FRESH_QUEUE)
    {
    }

    lemma SameKeys()
      requires Valid()
      ensures lockStates.Keys == locks.Keys && queueStates.Keys == queues.Keys
    {
      Unseal(None, None);
    }

    method AddLock(l: LockId, lock: LockStruct)
      requires Valid() && l !in locks && lock.id == l && lock.Value() == FRESH_LOCK
      modifies `locks, `lockStates, `repr
      ensures Valid() && S() == WithLock(old(S()), l, FRESH_LOCK)
      ensures repr == old(repr) + {lock} && locks == old(locks)[l := lock]
    {
      Unseal(None, None);
      locks := locks[l := lock];
      lockStates := SetLk(lockStates, l, FRESH_LOCK);
      repr := repr + {lock};
      forall k | k in locks ensures LockAt(locks[k], k, lockStates[k]) {
        assert k != l ==> old(LockAt(locks[k], k, lockStates[k]));
      }
      OldQueues();
      Seal(None, None);
    }

    /** lock_init. */
    method InitLock(l: LockId)
      requires Valid() && l !in locks
      modifies `locks, `lockStates, `repr
      ensures Valid() && fresh(repr - old(repr)) && S() == WithLock(old(S()), l, FRESH_LOCK)
      ensures old(Inv(S(), true) && Known(S())) ==> Inv(S(), true) && Known(S())
    {
      ghost var s := S();
      var lock := new LockStruct(l);
      SameKeys();
      AddLock(l, lock);
      InitKeeps(s, S());
    }

    method AddQueue(q: nat, queue: IoQueueStruct)
      requires Valid() && q !in queues && queue.id == q && queue.buf.Length == BUFSIZE && queue.Value() == FRESH_QUEUE
      requires QueueLock(q) in locks && queue.lock == locks[QueueLock(q)] && queue.buf !in repr
      modifies `queues, `queueStates, `bufs, `repr
      ensures Valid() && S() == WithQueue(old(S()), q, FRESH_QUEUE) && repr == old(repr) + {queue, queue.buf}
    {
      queues := queues[q := queue];
      queueStates := SetQu(queueStates, q, FRESH_QUEUE);
      bufs := bufs[queue.buf := q];
      repr := repr + {queue, queue.buf};
      QueueJoins(q, queue);
      StateGrows(q);
    }

    /** ioq_init. */
    method InitQueue(q: nat)
      requires Valid() && q !in queues && QueueLock(q) !in locks
      modifies `locks, `lockStates, `queues, `queueStates, `bufs, `repr
      ensures Valid() && fresh(repr - old(repr))
      ensures S() == WithQueue(WithLock(old(S()), QueueLock(q), FRESH_LOCK), q, FRESH_QUEUE)
      ensures old(Inv(S(), true) && Known(S())) ==> Inv(S(), true) && Known(S())
    {
      ghost var s := S();
      var queue := new IoQueueStruct(q);
      SameKeys();
      AddLock(QueueLock(q), queue.lock);
      AddQueue(q, queue);
      InitKeeps(s, S());
    }
  }
}
