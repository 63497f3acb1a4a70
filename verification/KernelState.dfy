/** The state the scheduler, the locks and the bounded queues share, on one CPU.

    A stretch of code that runs with interrupts off is one step; with interrupts on, every
    access to shared data is a step of its own and a thread may be preempted before it.
    `Pc` names the points where a thread can stand between two steps.

    `owner`, `depth`, `written`, `read` and `booting` are history variables: no step reads
    them. `booting` says that main has not enabled interrupts yet (main.c:41). */
module KernelState {
  import opened Common

  type Tid = nat

  /** The thread that runs main, and only loops once it has enabled interrupts. */
  const MAIN: Tid := 0
  const BUFSIZE: nat := 64

  /** Locks used by clients, and the lock embedded in each bounded queue. */
  datatype LockId = Plain(id: nat) | QueueLock(q: nat)

  datatype Status = Running | Ready | Blocked | Unborn

  datatype Call = NoCall | GetChar(q: nat) | PutChar(q: nat, byte: char)

  datatype Pc =
    | Client            // outside the kernel's lock and queue code
    | Again(l: LockId)  // lock_acquire: about to count a recursive acquire
    | Down(l: LockId)   // lock_acquire: about to enter sema_dowm
    | Retest(l: LockId) // sema_dowm: inside thread_block, will test the value again
    | Hold(l: LockId)   // lock_acquire: value taken, holder not yet set
    | Check(l: LockId)  // lock_acquire: holder set, count not yet tested
    | One(l: LockId)    // lock_acquire: count tested, not yet set to 1
    | Many(l: LockId)   // lock_release: about to compare the count with 1
    | Less(l: LockId)   // lock_release: about to decrement the count
    | Last(l: LockId)   // lock_release: about to assert that the count is 1
    | Drop(l: LockId)   // lock_release: about to clear holder
    | Zero(l: LockId)   // lock_release: holder cleared, count not yet
    | Up(l: LockId)     // lock_release: about to enter sema_up
    | IoTest            // ioq_getchar / ioq_putchar: at the test of the while loop
    | IoSleep           // lock acquired, about to enter ioq_wait
    | IoSlept           // inside thread_block of ioq_wait

  /** Inside lock_acquire or lock_release. */
  predicate AtLock(pc: Pc) {
    pc != Client && pc != IoTest && pc != IoSleep && pc != IoSlept
  }

  /** `savedIf` is the interrupt flag the thread gets back when it is dispatched;
      `oldIf` is the local old_status of sema_dowm. */
  datatype Thread = Thread(status: Status, savedIf: bool, oldIf: bool, pc: Pc, call: Call,
                           depth: map<LockId, nat>, ticks: nat, priority: nat)

  datatype Lock = Lock(value: nat, waiters: seq<Tid>, holder: Option<Tid>, repeat: nat,
                       owner: Option<Tid>)

  function Zeros(): (s: seq<char>)
    ensures |s| == BUFSIZE
  {
    seq(BUFSIZE, _ => '\0')
  }

  type Buffer = s: seq<char> | |s| == BUFSIZE witness Zeros()
  type Position = n: nat | n < BUFSIZE

  datatype Queue = Queue(buf: Buffer, head: Position, tail: Position,
                         consumer: Option<Tid>, producer: Option<Tid>,
                         written: seq<char>, read: seq<char>)

  datatype State = State(threads: map<Tid, Thread>, locks: map<LockId, Lock>, queues: map<nat, Queue>,
                         ready: seq<Tid>, running: Tid, intr: bool, booting: bool)

  datatype File = ThreadC | SyncC | IoQueueC | ProcessC

  /** What a step leads to: a next state, or a failed ASSERT or PANIC at a source line. */
  datatype Outcome = Next(s: State) | Panic(file: File, line: nat)

  const NO_THREAD := Thread(Unborn, false, false, Client, NoCall, map[], 0, 0)
  /** What lock_init leaves (sync.c:44-48). */
  const FRESH_LOCK := Lock(1, [], None, 0, None)
  /** What ioq_init leaves (ioqueue.c:7-11). */
  const FRESH_QUEUE := Queue(Zeros(), 0, 0, None, None, [], [])

  function Th(ts: map<Tid, Thread>, t: Tid): Thread {
    if t in ts then ts[t] else NO_THREAD
  }

  function Lk(ls: map<LockId, Lock>, l: LockId): Lock {
    if l in ls then ls[l] else FRESH_LOCK
  }

  function Qu(qs: map<nat, Queue>, q: nat): Queue {
    if q in qs then qs[q] else FRESH_QUEUE
  }

  function SetTh(ts: map<Tid, Thread>, t: Tid, th: Thread): (r: map<Tid, Thread>)
    ensures forall u :: Th(r, u) == if u == t then th else Th(ts, u)
  {
    ts[t := th]
  }

  lemma SetThTwice(ts: map<Tid, Thread>, t: Tid, a: Thread, b: Thread)
    ensures SetTh(SetTh(ts, t, a), t, b) == SetTh(ts, t, b)
  {
  }

  function SetLk(ls: map<LockId, Lock>, l: LockId, lk: Lock): (r: map<LockId, Lock>)
    ensures forall k :: Lk(r, k) == if k == l then lk else Lk(ls, k)
  {
    ls[l := lk]
  }

  lemma SetLkTwice(ls: map<LockId, Lock>, l: LockId, a: Lock, b: Lock)
    ensures SetLk(SetLk(ls, l, a), l, b) == SetLk(ls, l, b)
  {
  }

  function SetQu(qs: map<nat, Queue>, q: nat, qu: Queue): (r: map<nat, Queue>)
    ensures forall k :: Qu(r, k) == if k == q then qu else Qu(qs, k)
  {
    qs[q := qu]
  }

  lemma SetQuTwice(qs: map<nat, Queue>, q: nat, a: Queue, b: Queue)
    ensures SetQu(SetQu(qs, q, a), q, b) == SetQu(qs, q, b)
  {
  }

  /** How many times the thread has acquired l and not yet released it. */
  function Depth(th: Thread, l: LockId): nat {
    if l in th.depth then th.depth[l] else 0
  }

  function SetDepth(th: Thread, l: LockId, n: nat): (r: Thread)
    ensures r == th.(depth := r.depth)
    ensures forall k :: Depth(r, k) == if k == l then n else Depth(th, k)
  {
    th.(depth := th.depth[l := n])
  }

  /** The running thread. */
  function Me(s: State): Thread {
    Th(s.threads, s.running)
  }

  function SetMe(s: State, th: Thread): State {
    s.(threads := SetTh(s.threads, s.running, th))
  }

  function Goto(s: State, pc: Pc): State {
    SetMe(s, Me(s).(pc := pc))
  }

  function WithLock(s: State, l: LockId, lk: Lock): State {
    s.(locks := SetLk(s.locks, l, lk))
  }

  function WithQueue(s: State, q: nat, qu: Queue): State {
    s.(queues := SetQu(s.queues, q, qu))
  }
}
