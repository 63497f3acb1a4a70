/** ioqueue.c: the bounded queue with one sleeping reader and one sleeping writer. */
module IoQueues {
  import opened Common
  import opened KernelState
  import opened Scheduling
  import opened Locking

  /** ioqueue.c:13-15. */
  function NextPos(pos: Position): (next: Position)
    ensures next == if pos == BUFSIZE - 1 then 0 else pos + 1
  {
    (pos + 1) % BUFSIZE
  }

  /** ioqueue.c:17-20. */
  predicate Full(qu: Queue) {
    NextPos(qu.head) == qu.tail
  }

  /** ioqueue.c:22-25. */
  predicate Empty(qu: Queue) {
    qu.head == qu.tail
  }

  /** The bytes in the buffer, oldest first. */
  function Pending(qu: Queue): seq<char> {
    if qu.tail <= qu.head then qu.buf[qu.tail..qu.head] else qu.buf[qu.tail..] + qu.buf[..qu.head]
  }

  /** ioqueue.c:46-47. */
  function TakeByte(qu: Queue): Queue {
    qu.(tail := NextPos(qu.tail), read := qu.read + [qu.buf[qu.tail]])
  }

  /** ioqueue.c:60-61. */
  function AddByte(qu: Queue, byte: char): Queue {
    qu.(buf := qu.buf[qu.head := byte], head := NextPos(qu.head), written := qu.written + [byte])
  }

  /** ioqueue.c:48-49 with 33-37: wake the sleeping writer, if there is one. */
  function WakeProducer(s: State, q: nat): Outcome {
    var p := Qu(s.queues, q).producer;
    if p.None? then Next(s) else
    var woken := ThreadUnblock(s, p.value);
    if woken.Panic? then woken else
    Next(WithQueue(woken.s, q, Qu(woken.s.queues, q).(producer := None)))
  }

  /** ioqueue.c:62-64 with 33-37: wake the sleeping reader, if there is one. */
  function WakeConsumer(s: State, q: nat): Outcome {
    var c := Qu(s.queues, q).consumer;
    if c.None? then Next(s) else
    var woken := ThreadUnblock(s, c.value);
    if woken.Panic? then woken else
    Next(WithQueue(woken.s, q, Qu(woken.s.queues, q).(consumer := None)))
  }

  /** ioqueue.c:46-50. */
  function GetByte(s: State, q: nat): Outcome {
    WakeProducer(SetMe(WithQueue(s, q, TakeByte(Qu(s.queues, q))), Me(s).(pc := Client, call := NoCall)), q)
  }

  /** ioqueue.c:60-64. */
  function PutByte(s: State, q: nat, byte: char): Outcome {
    WakeConsumer(SetMe(WithQueue(s, q, AddByte(Qu(s.queues, q), byte)), Me(s).(pc := Client, call := NoCall)), q)
  }

  /** ioqueue.c:40-42, 46-50: test the loop condition; either go for the lock or take a byte. */
  function GetTest(s: State, q: nat): Outcome {
    if s.intr then Panic(IoQueueC, 40) else
    if Empty(Qu(s.queues, q)) then TestHolder(s, QueueLock(q)) else GetByte(s, q)
  }

  /** ioqueue.c:54-56, 60-64. */
  function PutTest(s: State, q: nat, byte: char): Outcome {
    if s.intr then Panic(IoQueueC, 54) else
    if Full(Qu(s.queues, q)) then TestHolder(s, QueueLock(q)) else PutByte(s, q, byte)
  }

  /** The loop test of whichever call the running thread is in. */
  function CallTest(s: State): Outcome {
    match Me(s).call
    case GetChar(q) => GetTest(s, q)
    case PutChar(q, byte) => PutTest(s, q, byte)
    case NoCall => Next(s)
  }

  /** ioqueue.c:27-31, 43 and 57. */
  function IoWait(s: State): Outcome {
    match Me(s).call
    case GetChar(q) =>
      var qu := Qu(s.queues, q);
      if qu.consumer != None then Panic(IoQueueC, 28) else
      ThreadBlock(WithQueue(Goto(s, IoSlept), q, qu.(consumer := Some(s.running))))
    case PutChar(q, _) =>
      var qu := Qu(s.queues, q);
      if qu.producer != None then Panic(IoQueueC, 28) else
      ThreadBlock(WithQueue(Goto(s, IoSlept), q, qu.(producer := Some(s.running))))
    case NoCall => Next(s)
  }

  /** ioqueue.c:44 and 58, after the sleep. */
  function IoResume(s: State): Outcome {
    match Me(s).call
    case GetChar(q) => Release(s, QueueLock(q))
    case PutChar(q, _) => Release(s, QueueLock(q))
    case NoCall => Next(s)
  }

  /** keyboard.c:156-160: the handler runs with interrupts off in whatever thread was
      interrupted, and drops the byte when the queue is full. */
  function KeyPress(s: State, q: nat, byte: char): Outcome {
    var qu := Qu(s.queues, q);
    if Full(qu) then Next(s) else WakeConsumer(WithQueue(s, q, AddByte(qu, byte)), q)
  }
}
