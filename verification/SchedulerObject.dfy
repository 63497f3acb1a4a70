/** thread.c and timer.c in their own form: structures updated in place.

    Every method is one step, or a part of one, of the step system. `world` stands for
    everything the method cannot reach, and the contract says that, whatever that is, the
    method takes the whole state to what the step function says, and fails where that panics. */
module SchedulerObject {
  import opened Common
  import opened KernelState
  import Scheduling

  /** A finished step, or the ASSERT or PANIC that stopped it. */
  datatype Verdict = Fine | Failed(file: File, line: nat)

  ghost predicate Is(o: Outcome, v: Verdict, s: State) {
    match v
    case Fine => o == Next(s)
    case Failed(file, line) => o == Panic(file, line)
  }

  /** struct task_struct; `pc` and `savedIf` stand for what its kernel stack holds. */
  class TaskStruct {
    const id: Tid
    var status: Status
    var savedIf: bool
    var oldIf: bool
    var pc: Pc
    var call: Call
    var ticks: nat
    var priority: nat
    ghost var depth: map<LockId, nat>

    ghost function Value(): Thread
      reads this
    {
      Thread(status, savedIf, oldIf, pc, call, depth, ticks, priority)
    }

    /** init_thread (thread.c:34-48); main is the thread that is already on the CPU. */
    constructor (id: Tid, prio: nat)
      ensures this.id == id
      ensures Value() == Thread(if id == MAIN then Running else Ready, true, false, Client, NoCall, map[], prio, prio)
    {
      this.id := id;
      status := if id == MAIN then Running else Ready;
      savedIf, oldIf, pc, call := true, false, Client, NoCall;
      ticks, priority, depth := prio, prio, map[];
    }
  }

  /** The parts of the scheduler's validity; naming them keeps a part folded where it is not used. */
  datatype Aspect = Structures | Pointers

  /** The globals of thread.c. */
  class Scheduler {
    var tasks: map<Tid, TaskStruct>
    var ready: seq<Tid>
    var running: Tid
    var intr: bool
    ghost var threads: map<Tid, Thread>
    ghost var structs: set<TaskStruct>

    /** The structures hold what `threads` says, perhaps but for one just written. */
    ghost predicate TasksOk(written: Option<Tid>)
      reads `tasks, `threads, `structs, structs
    {
      && tasks.Keys == threads.Keys
      && forall t :: t in tasks ==>
        tasks[t] in structs && tasks[t].id == t && (Some(t) == written || tasks[t].Value() == threads[t])
    }

    ghost predicate Holds(a: Aspect)
      reads this, structs
    {
      match a
      case Structures => TasksOk(None)
      case Pointers => running in tasks && forall i :: 0 <= i < |ready| ==> ready[i] in tasks
    }

    ghost predicate Valid()
      reads this, structs
    {
      forall a: Aspect :: Holds(a)
    }

    /** thread_init (thread.c:109-115 and 144-149): main on the CPU, nobody ready, interrupts off. */
    constructor ()
      ensures Valid() && fresh(structs) && ready == [] && running == MAIN && !intr
      ensures threads == map[MAIN := Thread(Running, true, false, Client, NoCall, map[], 31, 31)]
    {
      var main := new TaskStruct(MAIN, 31);
      tasks, ready, running, intr := map[MAIN := main], [], MAIN, false;
      threads, structs := map[MAIN := main.Value()], {main};
      new;
      assert Holds(Structures) && Holds(Pointers);
    }

    /** Brings `threads` up to date after writing to the structure of t. */
    ghost method Written(t: Tid)
      requires t in tasks && TasksOk(Some(t))
      modifies `threads
      ensures TasksOk(None) && threads == SetTh(old(threads), t, tasks[t].Value())
    {
      threads := SetTh(threads, t, tasks[t].Value());
    }

    ghost function In(world: State): State
      reads this
    {
      State(threads, world.locks, world.queues, ready, running, intr, world.booting)
    }

    /** running_thread(). */
    function Current(): (th: TaskStruct)
      requires Valid()
      reads this, structs
      ensures th in structs && th.Value() == Th(threads, running)
    {
      assert Holds(Structures) && Holds(Pointers);
      tasks[running]
    }

    /** `t->status = status` */
    method SetStatus(t: Tid, status: Status)
      requires Valid() && t in tasks
      modifies `threads, structs
      ensures Valid() && threads == SetTh(old(threads), t, Th(old(threads), t).(status := status))
    {
      assert Holds(Structures) && Holds(Pointers);
      tasks[t].status := status;
      assert tasks[t].Value() == Th(threads, t).(status := status);
      Written(t);
    }

    /** thread.c:98-106. */
    method Dispatch(ghost world: State) returns (v: Verdict)
      requires Valid()
      modifies `ready, `running, `intr, `threads, structs
      ensures Valid() && Is(Scheduling.Dispatch(old(In(world))), v, In(world))
    {
      assert Holds(Structures) && Holds(Pointers);
      if ready == [] {
        return Failed(ThreadC, 98);
      }
      var n := ready[0];
      ready := ready[1..];
      assert Holds(Structures) && Holds(Pointers);
      SwitchTo(n);
      v := Fine;
    }

    /** thread.c:103-106. */
    method SwitchTo(n: Tid)
      requires Valid() && n in tasks
      modifies `running, `intr, `threads, structs
      ensures Valid() && running == n && intr == Th(old(threads), n).savedIf
      ensures threads == SetTh(old(threads), n, Th(old(threads), n).(status := Running))
    {
      assert Holds(Structures) && Holds(Pointers);
      assert tasks[n].Value() == Th(threads, n);
      running, intr := n, tasks[n].savedIf;
      assert Holds(Structures) && Holds(Pointers);
      SetStatus(n, Running);
    }

    /** thread.c:87-107. */
    method Schedule(ghost world: State) returns (v: Verdict)
      requires Valid()
      modifies `ready, `running, `intr, `threads, structs
      ensures Valid() && Is(Scheduling.Schedule(old(In(world))), v, In(world))
    {
      assert Holds(Structures) && Holds(Pointers);
      var cur := Current();
      if cur.status == Running {
        if running in ready {
          return Failed(ThreadC, 91);
        }
        Requeue();
      }
      v := Dispatch(world);
    }

    /** thread.c:92-94. */
    method Requeue()
      requires Valid()
      modifies `ready, `threads, structs
      ensures Valid() && ready == old(ready) + [running]
      ensures threads == SetTh(old(threads), running,
                               Th(old(threads), running).(status := Ready, ticks := Th(old(threads), running).priority))
    {
      assert Holds(Structures) && Holds(Pointers);
      var cur := Current();
      ready := ready + [running];
      cur.ticks := cur.priority;
      cur.status := Ready;
      assert cur.Value() == Th(threads, running).(status := Ready, ticks := cur.priority);
      Written(running);
    }

    /** thread.c:119-127. */
    method ThreadBlock(ghost world: State) returns (v: Verdict)
      requires Valid()
      modifies `ready, `running, `intr, `threads, structs
      ensures Valid() && Is(Scheduling.ThreadBlock(old(In(world))), v, In(world))
    {
      assert Holds(Structures) && Holds(Pointers);
      var cur := Current();
      cur.savedIf := intr;
      cur.status := Blocked;
      Written(running);
      v := Schedule(world);
    }

    /** thread.c:131-142. */
    method ThreadUnblock(t: Tid, ghost world: State) returns (v: Verdict)
      requires Valid() && t in tasks
      modifies `ready, `threads, structs
      ensures Valid() && Is(Scheduling.ThreadUnblock(old(In(world)), t), v, In(world))
    {
      assert Holds(Structures) && Holds(Pointers);
      var th := tasks[t];
      if th.status != Blocked {
        return Failed(ThreadC, 134);
      }
      if t in ready {
        return Failed(ThreadC, 137);
      }
      ready := [t] + ready;
      assert Holds(Structures) && Holds(Pointers);
      SetStatus(t, Ready);
      v := Fine;
    }

    /** schedule() called from an interrupt: the flag was saved on entry. */
    method Preempt(ghost world: State) returns (v: Verdict)
      requires Valid()
      modifies `ready, `running, `intr, `threads, structs
      ensures Valid()
      ensures Is(Scheduling.Schedule(SetMe(old(In(world)), Me(old(In(world))).(savedIf := old(intr)))), v, In(world))
    {
      assert Holds(Structures) && Holds(Pointers);
      var cur := Current();
      cur.savedIf := intr;
      assert cur.Value() == Th(threads, running).(savedIf := intr);
      Written(running);
      v := Schedule(world);
    }

    /** timer.c:23-32. */
    method ClockInterrupt(ghost world: State) returns (v: Verdict)
      requires Valid()
      modifies `ready, `running, `intr, `threads, structs
      ensures Valid() && Is(Scheduling.ClockTick(old(In(world))), v, In(world))
    {
      assert Holds(Structures) && Holds(Pointers);
      var cur := Current();
      if cur.ticks == 0 {
        v := Preempt(world);
      } else {
        CountTick();
        v := Fine;
      }
    }

    /** timer.c:31. */
    method CountTick()
      requires Valid() && Th(threads, running).ticks > 0
      modifies `threads, structs
      ensures Valid()
      ensures threads == SetTh(old(threads), running,
                               Th(old(threads), running).(ticks := Th(old(threads), running).ticks - 1))
    {
      assert Holds(Structures) && Holds(Pointers);
      var cur := Current();
      cur.ticks := cur.ticks - 1;
      assert cur.Value() == Th(threads, running).(ticks := Th(threads, running).ticks - 1);
      Written(running);
    }

    /** The control block of a new thread (thread.c:74-77, process.c:97-100). */
    method Create(t: Tid, prio: nat)
      requires Valid() && t !in tasks && t != MAIN
      modifies `tasks, `structs, `threads
      ensures Valid() && t in tasks && fresh(structs - old(structs))
      ensures threads == SetTh(old(threads), t, Thread(Ready, true, false, Client, NoCall, map[], prio, prio))
    {
      assert Holds(Structures) && Holds(Pointers);
      var thread := new TaskStruct(t, prio);
      tasks, structs := tasks[t := thread], structs + {thread};
      threads := SetTh(threads, t, thread.Value());
      assert Holds(Structures) && Holds(Pointers);
    }

    /** process.c:96-108: the new thread is not in the ready list, and enters it. */
    method Start(t: Tid, prio: nat, ghost world: State)
      requires Valid() && t !in tasks && t != MAIN
      modifies this
      ensures Valid() && fresh(structs - old(structs))
      ensures Scheduling.Spawn(old(In(world)), t, prio) == Next(In(world))
    {
      assert t !in ready by {
        assert Holds(Pointers);
      }
      Create(t, prio);
      assert Holds(Structures) && Holds(Pointers);
      ready := ready + [t];
      assert Holds(Structures) && Holds(Pointers);
    }

    /** intr_set_status with intr_enable and intr_disable (interrupt.c:143-167). */
    method SetIntr(on: bool) returns (was: bool)
      requires Valid()
      modifies `intr
      ensures Valid() && intr == on && was == old(intr)
    {
      assert Holds(Structures) && Holds(Pointers);
      was, intr := intr, on;
      assert Holds(Structures) && Holds(Pointers);
    }

    /** The running thread enters or leaves a call on a queue. */
    method SetCall(pc: Pc, call: Call)
      requires Valid()
      modifies `threads, structs
      ensures Valid() && threads == SetTh(old(threads), running, Th(old(threads), running).(pc := pc, call := call))
    {
      assert Holds(Structures) && Holds(Pointers);
      var cur := Current();
      cur.pc, cur.call := pc, call;
      assert cur.Value() == Th(threads, running).(pc := pc, call := call);
      Written(running);
    }

    /** old_status of sema_dowm. */
    method SaveFlag()
      requires Valid()
      modifies `threads, structs
      ensures Valid() && threads == SetTh(old(threads), running, Th(old(threads), running).(oldIf := intr))
    {
      assert Holds(Structures) && Holds(Pointers);
      var cur := Current();
      cur.oldIf := intr;
      assert cur.Value() == Th(threads, running).(oldIf := intr);
      Written(running);
    }

    /** The running thread gets to its next point. */
    method MoveTo(pc: Pc)
      requires Valid()
      modifies `threads, structs
      ensures Valid() && threads == SetTh(old(threads), running, Th(old(threads), running).(pc := pc))
    {
      assert Holds(Structures) && Holds(Pointers);
      var cur := Current();
      cur.pc := pc;
      assert cur.Value() == Th(threads, running).(pc := pc);
      Written(running);
    }

    /** The same, when the point marks how often the thread has acquired l. */
    method MoveToDepth(pc: Pc, l: LockId, ghost n: nat)
      requires Valid()
      modifies `threads, structs
      ensures Valid() && threads == SetTh(old(threads), running, SetDepth(Th(old(threads), running), l, n).(pc := pc))
    {
      assert Holds(Structures) && Holds(Pointers);
      var cur := Current();
      cur.pc := pc;
      cur.depth := SetDepth(cur.Value(), l, n).depth;
      assert cur.Value() == SetDepth(Th(threads, running), l, n).(pc := pc);
      Written(running);
    }
  }
}
