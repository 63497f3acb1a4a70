/** ioqueue.c in its own form. */
module QueueObject {
  import opened Common
  import opened KernelState
  import opened SchedulerObject
  import opened LockObject
  import Locking
  import IoQueues
  import KernelSystem

  /** What writing to one queue does to the whole state. */
  lemma Stored(world: State, s: State, s': State, q: nat, lk: Lock, qu: Queue, qu': Queue)
    requires s.locks == SetLk(world.locks, QueueLock(q), lk) && s.queues == SetQu(world.queues, q, qu)
    requires s' == s.(queues := SetQu(world.queues, q, qu'))
    ensures s' == WithQueue(s, q, qu')
  {
    SetQuTwice(world.queues, q, qu, qu');
  }

  lemma KeyStores(s: State, q: nat, qu: Queue, byte: char)
    requires Qu(s.queues, q) == qu
    ensures IoQueues.KeyPress(s, q, byte) ==
      if (qu.head + 1) % BUFSIZE == qu.tail then Next(s)
      else IoQueues.WakeConsumer(WithQueue(s, q, IoQueues.AddByte(qu, byte)), q)
  {
  }

  ghost function Entered(qu: Queue, reader: bool, t: Tid): Queue {
    if reader then qu.(consumer := Some(t)) else qu.(producer := Some(t))
  }

  ghost function SlotOf(qu: Queue, reader: bool): Option<Tid> {
    if reader then qu.consumer else qu.producer
  }

  lemma SleepIs(s: State, q: nat, qu: Queue, reader: bool)
    requires Qu(s.queues, q) == qu && Me(s).call != NoCall && Me(s).call.q == q && reader == Me(s).call.GetChar?
    ensures IoQueues.IoWait(s) ==
      if SlotOf(qu, reader) != None then Panic(IoQueueC, 28)
      else Scheduling.ThreadBlock(WithQueue(Goto(s, IoSlept), q, Entered(qu, reader, s.running)))
  {
  }

  /** struct ioqueue. */
  class IoQueueStruct {
    const id: nat
    const lock: LockStruct
    const buf: array<char>
    var head: Position
    var tail: Position
    var consumer: Option<Tid>
    var producer: Option<Tid>
    ghost var written: seq<char>
    ghost var read: seq<char>

    ghost predicate Valid(k: Scheduler)
      reads k, k.structs
    {
      buf.Length == BUFSIZE && lock.id == QueueLock(id) && k.Valid()
    }

    ghost function Value(): Queue
      requires buf.Length == BUFSIZE
      reads this, buf
    {
      Queue(buf[..], head, tail, consumer, producer, written, read)
    }

    /** Whoever sleeps in a slot is a task. */
    ghost predicate SlotsOk(k: Scheduler)
      reads `consumer, `producer, k`tasks
    {
      (consumer.Some? ==> consumer.value in k.tasks) && (producer.Some? ==> producer.value in k.tasks)
    }

    /** The whole state: this queue, its lock, the scheduler, and the rest of the world. */
    ghost function At(k: Scheduler, world: State): State
      requires buf.Length == BUFSIZE
      reads this, buf, lock, k
    {
      k.In(WithQueue(WithLock(world, QueueLock(id), lock.Value()), id, Value()))
    }

    /** ioq_init. */
    constructor (id: nat)
      ensures this.id == id && buf.Length == BUFSIZE && lock.id == QueueLock(id)
      ensures Value() == FRESH_QUEUE && lock.Value() == FRESH_LOCK
      ensures fresh(buf) && fresh(lock)
    {
      this.id := id;
      lock := new LockStruct(QueueLock(id));
      buf := new char[BUFSIZE](_ => '\0');
      consumer, producer, head, tail := None, None, 0, 0;
      written, read := [], [];
    }

    /** ioqueue.c:46-47. */
    method TakeByte() returns (byte: char)
      requires buf.Length == BUFSIZE
      modifies `tail, `read
      ensures Value() == IoQueues.TakeByte(old(Value())) && byte == old(buf[tail])
    {
      byte := buf[tail];
      tail := (tail + 1) % BUFSIZE;
      read := read + [byte];
    }

    /** ioqueue.c:60-61. */
    method AddByte(byte: char)
      requires buf.Length == BUFSIZE
      modifies `head, `written, buf
      ensures Value() == IoQueues.AddByte(old(Value()), byte)
    {
      buf[head] := byte;
      head := (head + 1) % BUFSIZE;
      written := written + [byte];
    }

    /** ioqueue.c:48-49 with wakeup, 33-37. */
    method WakeProducer(k: Scheduler, ghost world: State) returns (v: Verdict)
      requires Valid(k) && SlotsOk(k)
      modifies `producer, k`ready, k`threads, k.structs
      ensures Valid(k) && SlotsOk(k) && Is(IoQueues.WakeProducer(old(At(k, world)), id), v, At(k, world))
    {
      v := Fine;
      if producer.Some? {
        ghost var w, qu := WithLock(world, QueueLock(id), lock.Value()), Value();
        v := k.ThreadUnblock(producer.value, WithQueue(w, id, Value()));
        producer := None;
        SetQuTwice(w.queues, id, qu, Value());
        assert Value() == qu.(producer := None);
      }
    }

    /** ioqueue.c:62-64 with wakeup. */
    method WakeConsumer(k: Scheduler, ghost world: State) returns (v: Verdict)
      requires Valid(k) && SlotsOk(k)
      modifies `consumer, k`ready, k`threads, k.structs
      ensures Valid(k) && SlotsOk(k) && Is(IoQueues.WakeConsumer(old(At(k, world)), id), v, At(k, world))
    {
      v := Fine;
      if consumer.Some? {
        ghost var w, qu := WithLock(world, QueueLock(id), lock.Value()), Value();
        v := k.ThreadUnblock(consumer.value, WithQueue(w, id, Value()));
        consumer := None;
        SetQuTwice(w.queues, id, qu, Value());
        assert Value() == qu.(consumer := None);
      }
    }

    /** ioqueue.c:46-50. */
    method GetByte(k: Scheduler, ghost world: State) returns (v: Verdict)
      requires Valid(k) && SlotsOk(k)
      modifies `tail, `read, `producer, k`ready, k`threads, k.structs
      ensures Valid(k) && SlotsOk(k) && Is(IoQueues.GetByte(old(At(k, world)), id), v, At(k, world))
    {
      ghost var s, qu := At(k, world), Value();
      var byte := TakeByte();
      k.SetCall(Client, NoCall);
      SetQuTwice(WithLock(world, QueueLock(id), lock.Value()).queues, id, qu, Value());
      assert At(k, world) == SetMe(WithQueue(s, id, IoQueues.TakeByte(qu)), Me(s).(pc := Client, call := NoCall));
      v := WakeProducer(k, world);
    }

    /** ioqueue.c:60-64. */
    method PutByte(byte: char, k: Scheduler, ghost world: State) returns (v: Verdict)
      requires Valid(k) && SlotsOk(k)
      modifies `head, `written, `consumer, buf, k`ready, k`threads, k.structs
      ensures Valid(k) && SlotsOk(k) && Is(IoQueues.PutByte(old(At(k, world)), id, byte), v, At(k, world))
    {
      ghost var s, qu := At(k, world), Value();
      AddByte(byte);
      k.SetCall(Client, NoCall);
      SetQuTwice(WithLock(world, QueueLock(id), lock.Value()).queues, id, qu, Value());
      assert At(k, world) == SetMe(WithQueue(s, id, IoQueues.AddByte(qu, byte)), Me(s).(pc := Client, call := NoCall));
      v := WakeConsumer(k, world);
    }

    /** ioqueue.c:42 and 56: lock_acquire, up to its first test. */
    method AskLock(k: Scheduler, ghost world: State) returns (v: Verdict)
      requires Valid(k)
      modifies k`threads, k.structs
      ensures Valid(k) && Is(Locking.TestHolder(old(At(k, world)), QueueLock(id)), v, At(k, world))
    {
      v := lock.TestHolder(k, WithQueue(world, id, Value()));
    }

    /** ioqueue.c:40-42 and 46-50: take a byte, or go for the lock. */
    method GetTest(k: Scheduler, ghost world: State) returns (v: Verdict)
      requires Valid(k) && SlotsOk(k)
      modifies `tail, `read, `producer, k`ready, k`threads, k.structs
      ensures Valid(k) && SlotsOk(k) && Is(IoQueues.GetTest(old(At(k, world)), id), v, At(k, world))
    {
      ghost var s := At(k, world);
      if k.intr {
        return Failed(IoQueueC, 40);
      }
      if head == tail {
        assert IoQueues.GetTest(s, id) == Locking.TestHolder(s, QueueLock(id));
        v := AskLock(k, world);
      } else {
        assert IoQueues.GetTest(s, id) == IoQueues.GetByte(s, id);
        v := GetByte(k, world);
      }
    }

    /** ioqueue.c:54-56 and 60-64. */
    method PutTest(byte: char, k: Scheduler, ghost world: State) returns (v: Verdict)
      requires Valid(k) && SlotsOk(k)
      modifies `head, `written, `consumer, buf, k`ready, k`threads, k.structs
      ensures Valid(k) && SlotsOk(k) && Is(IoQueues.PutTest(old(At(k, world)), id, byte), v, At(k, world))
    {
      ghost var s := At(k, world);
      if k.intr {
        return Failed(IoQueueC, 54);
      }
      if (head + 1) % BUFSIZE == tail {
        assert IoQueues.PutTest(s, id, byte) == Locking.TestHolder(s, QueueLock(id));
        v := AskLock(k, world);
      } else {
        assert IoQueues.PutTest(s, id, byte) == IoQueues.PutByte(s, id, byte);
        v := PutByte(byte, k, world);
      }
    }

    /** keyboard.c:156-160. */
    method KeyPress(byte: char, k: Scheduler, ghost world: State) returns (v: Verdict)
      requires Valid(k) && SlotsOk(k)
      modifies `head, `written, `consumer, buf, k`ready, k`threads, k.structs
      ensures Valid(k) && SlotsOk(k) && Is(IoQueues.KeyPress(old(At(k, world)), id, byte), v, At(k, world))
    {
      KeyStores(At(k, world), id, Value(), byte);
      if (head + 1) % BUFSIZE == tail {
        return Fine;
      }
      StoreByte(byte, k, world);
      v := WakeConsumer(k, world);
    }

    /** The byte goes into the ring, whoever runs. */
    method StoreByte(byte: char, k: Scheduler, ghost world: State)
      requires Valid(k) && SlotsOk(k)
      modifies `head, `written, buf
      ensures Valid(k) && SlotsOk(k)
      ensures At(k, world) == WithQueue(old(At(k, world)), id, IoQueues.AddByte(old(Value()), byte))
    {
      ghost var s, qu := At(k, world), Value();
      AddByte(byte);
      Stored(world, s, At(k, world), id, lock.Value(), qu, Value());
    }

    /** ioqueue.c:27-31 and 43, 57: the caller goes into its slot and to sleep. */
    method Wait(k: Scheduler, ghost world: State) returns (v: Verdict)
      requires Valid(k) && SlotsOk(k) && Me(k.In(world)).call != NoCall && Me(k.In(world)).call.q == id
      modifies `consumer, `producer, k`ready, k`running, k`intr, k`threads, k.structs
      ensures Valid(k) && SlotsOk(k) && Is(IoQueues.IoWait(old(At(k, world))), v, At(k, world))
    {
      var cur := k.Current();
      var reader := cur.call.GetChar?;
      SleepIs(At(k, world), id, Value(), reader);
      var slot := if reader then consumer else producer;
      assert slot == SlotOf(Value(), reader);
      if slot != None {
        return Failed(IoQueueC, 28);
      }
      EnterSlot(reader, k, world);
      v := Block(k, world);
    }

    /** ioqueue.c:30. */
    method Block(k: Scheduler, ghost world: State) returns (v: Verdict)
      requires Valid(k) && SlotsOk(k)
      modifies k`ready, k`running, k`intr, k`threads, k.structs
      ensures Valid(k) && SlotsOk(k) && Is(Scheduling.ThreadBlock(old(At(k, world))), v, At(k, world))
    {
      v := k.ThreadBlock(WithQueue(WithLock(world, QueueLock(id), lock.Value()), id, Value()));
    }

    /** `*waiter = running_thread()` */
    method SetSlot(reader: bool, k: Scheduler)
      requires Valid(k) && SlotsOk(k)
      modifies `consumer, `producer
      ensures SlotsOk(k) && Value() == Entered(old(Value()), reader, k.running)
    {
      assert k.Holds(Pointers);
      if reader {
        consumer := Some(k.running);
      } else {
        producer := Some(k.running);
      }
    }

    /** The running thread is in its slot, about to block. */
    method EnterSlot(reader: bool, k: Scheduler, ghost world: State)
      requires Valid(k) && SlotsOk(k)
      modifies `consumer, `producer, k`threads, k.structs
      ensures Valid(k) && SlotsOk(k)
      ensures At(k, world) == WithQueue(Goto(old(At(k, world)), IoSlept), id, Entered(old(Value()), reader, k.running))
    {
      ghost var s, qu := At(k, world), Value();
      SetSlot(reader, k);
      ghost var waiting := Value();
      Stored(world, s, At(k, world), id, lock.Value(), qu, waiting);
      k.MoveTo(IoSlept);
      assert Value() == waiting;
    }

    /** ioqueue.c:44 and 58. */
    method Resume(k: Scheduler, ghost world: State) returns (v: Verdict)
      requires Valid(k) && Me(k.In(world)).call != NoCall && Me(k.In(world)).call.q == id
      modifies k`threads, k.structs
      ensures Valid(k) && Is(IoQueues.IoResume(old(At(k, world))), v, At(k, world))
    {
      v := lock.Release(k, WithQueue(world, id, Value()));
    }

    /** The loop test of the call the running thread is in. */
    method CallTest(k: Scheduler, ghost world: State) returns (v: Verdict)
      requires Valid(k) && SlotsOk(k) && Me(k.In(world)).call != NoCall && Me(k.In(world)).call.q == id
      modifies this, buf, k`ready, k`threads, k.structs
      ensures Valid(k) && Is(IoQueues.CallTest(old(At(k, world))), v, At(k, world))
    {
      var cur := k.Current();
      match cur.call
      case GetChar(_) => v := GetTest(k, world);
      case PutChar(_, byte) => v := PutTest(byte, k, world);
    }

    /** The running thread's next step around its sleep in ioq_getchar or ioq_putchar. */
    method GoSleep(k: Scheduler, ghost world: State) returns (v: Verdict)
      requires Valid(k) && SlotsOk(k) && Me(k.In(world)).call != NoCall && Me(k.In(world)).call.q == id
      requires Me(k.In(world)).pc in {IoSleep, IoSlept}
      modifies this, k`ready, k`running, k`intr, k`threads, k.structs
      ensures Valid(k) && Is(KernelSystem.GoStep(old(At(k, world))), v, At(k, world))
    {
      ghost var s := At(k, world);
      var cur := k.Current();
      if cur.pc == IoSleep {
        assert KernelSystem.GoStep(s) == IoQueues.IoWait(s);
        v := Wait(k, world);
      } else {
        assert KernelSystem.GoStep(s) == IoQueues.IoResume(s);
        v := Resume(k, world);
      }
    }

    /** ioq_getchar or ioq_putchar is called. */
    method Enter(call: Call, k: Scheduler, ghost world: State) returns (v: Verdict)
      requires Valid(k) && SlotsOk(k) && call != NoCall && call.q == id
      modifies this, buf, k`ready, k`threads, k.structs
      ensures Valid(k)
      ensures Is(IoQueues.CallTest(SetMe(old(At(k, world)), Me(old(At(k, world))).(pc := IoTest, call := call))),
                 v, At(k, world))
    {
      k.SetCall(IoTest, call);
      v := CallTest(k, world);
    }
  }
}
