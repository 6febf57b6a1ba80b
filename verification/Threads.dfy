// Scheduler, semaphores and locks as a step system
// (source/thread/thread.c, source/thread/sync.c, source/device/timer.c:36-54).
//
// One CPU runs one thread at a time. A stretch of code with interrupts off is one step; every
// other access to a lock variable is a step of its own, and the timer may fire between any two
// steps except inside SemaphoreDown, which keeps interrupts off across a block.
module Threads {
  import opened Basics

  type Tid = nat
  type Sid = nat   // a semaphore; a lock shares the id of its semaphore

  const COUNT_LIMIT := 0x1_0000_0000   // holder_repeat_request_sum is 32 bits wide
  const VALUE_LIMIT := 0x100           // semaphore value is 8 bits wide

  datatype Status = Running | Ready | Blocked

  // Where a thread stands; the numbers are lines of sync.c.
  datatype Pc =
    | Client                      // outside lock and semaphore code
    | LockTest(l: Sid)            // 56
    | Down(s: Sid)                // 25-37 on entry
    | Retest(s: Sid)              // 27 after having blocked, interrupts still off
    | SetHolder(l: Sid)           // 59
    | CheckZero(l: Sid)           // 60
    | SetCount(l: Sid)            // 61
    | Again(l: Sid)               // 65
    | CheckHolder(l: Sid)         // 71
    | UnlockTest(l: Sid)          // 72
    | Drop(l: Sid)                // 74
    | CheckOne(l: Sid)            // 77
    | ClearCount(l: Sid)          // 78
    | ClearHolder(l: Sid)         // 79
    | Up(s: Sid)                  // 43-51

  // `nest` records how often the thread's calls have taken each lock: it is what the caller knows,
  // and no step reads it.
  datatype Thread = Thread(status: Status, pc: Pc, ticksLeft: nat, priority: nat, nest: map<Sid, nat>)
  datatype Sem = Sem(value: nat, waiting: seq<Tid>)
  datatype Lock = Lock(holder: Option<Tid>, count: nat)

  datatype Kernel = Kernel(threads: map<Tid, Thread>, ready: seq<Tid>, running: Tid,
                           sems: map<Sid, Sem>, locks: map<Sid, Lock>)

  datatype Action = Tick | Advance | Call(pc: Pc) | Spawn(t: Tid, priority: nat)

  // Halt: an ASSERT fails and the kernel spins; the number is the source line.
  datatype Outcome = Next(k: Kernel) | Halt(line: nat) | Disabled

  function Nest(th: Thread, l: Sid): nat
  {
    if l in th.nest then th.nest[l] else 0
  }

  // References lead to existing objects.
  predicate PcOk(k: Kernel, pc: Pc)
  {
    match pc
    case Client => true
    case Down(s) => s in k.sems
    case Retest(s) => s in k.sems
    case Up(s) => s in k.sems
    case _ => pc.l in k.locks
  }

  predicate Formed(k: Kernel)
  {
    && k.running in k.threads
    && k.locks.Keys <= k.sems.Keys
    && (forall t | t in k.ready :: t in k.threads)
    && (forall s, t | s in k.sems && t in k.sems[s].waiting :: t in k.threads)
    && (forall t | t in k.threads :: PcOk(k, k.threads[t].pc))
  }

  // ----- thread.c and timer.c

  // thread.c:65-74
  function Dispatch(k: Kernel): Outcome
    requires forall t | t in k.ready :: t in k.threads
  {
    if k.ready == [] then Halt(65)
    else
      var n := k.ready[0];
      Next(k.(ready := k.ready[1..], running := n,
              threads := k.threads[n := k.threads[n].(status := Running)]))
  }

  // thread.c:47-75
  function Schedule(k: Kernel): Outcome
    requires k.running in k.threads && forall t | t in k.ready :: t in k.threads
  {
    var cur := k.running;
    var th := k.threads[cur];
    if !th.status.Running? then Dispatch(k)
    else if cur in k.ready then Halt(54)
    else Dispatch(k.(threads := k.threads[cur := th.(status := Ready, ticksLeft := th.priority)],
                     ready := k.ready + [cur]))
  }

  // thread.c:157-176
  function Unblock(k: Kernel, t: Tid): Outcome
    requires t in k.threads
  {
    if !k.threads[t].status.Blocked? then Halt(160)
    else if t in k.ready then Halt(165)
    else Next(k.(ready := [t] + k.ready, threads := k.threads[t := k.threads[t].(status := Ready)]))
  }

  // timer.c:36-54
  function Timer(k: Kernel): Outcome
    requires Formed(k)
  {
    var th := k.threads[k.running];
    if th.pc.Retest? then Disabled
    else if th.ticksLeft == 0 then Schedule(k)
    else Next(k.(threads := k.threads[k.running := th.(ticksLeft := th.ticksLeft - 1)]))
  }

  // ----- sync.c

  function Goto(k: Kernel, pc: Pc): Kernel
    requires k.running in k.threads
  {
    k.(threads := k.threads[k.running := k.threads[k.running].(pc := pc)])
  }

  function GotoNest(k: Kernel, pc: Pc, l: Sid, n: nat): Kernel
    requires k.running in k.threads
  {
    var th := k.threads[k.running];
    k.(threads := k.threads[k.running := th.(pc := pc, nest := th.nest[l := n])])
  }

  function WithLock(k: Kernel, l: Sid, v: Lock): Kernel
  {
    k.(locks := k.locks[l := v])
  }

  // One test of the loop at sync.c:27-36, and line 37 when it ends.
  function DownStep(k: Kernel, s: Sid): Outcome
    requires Formed(k) && s in k.sems
  {
    var sem := k.sems[s];
    if sem.value == 0 then
      if k.running in sem.waiting then Halt(29)
      else Schedule(Sleep(k, s))
    else
      Next(Goto(k.(sems := k.sems[s := sem.(value := sem.value - 1)]), if s in k.locks then SetHolder(s) else Client))
  }

  // sync.c:34 and thread.c:152: the running thread queues up and is marked blocked.
  function Sleep(k: Kernel, s: Sid): Kernel
    requires k.running in k.threads && s in k.sems
  {
    var sem := k.sems[s];
    k.(sems := k.sems[s := sem.(waiting := sem.waiting + [k.running])],
       threads := k.threads[k.running := k.threads[k.running].(status := Blocked, pc := Retest(s))])
  }

  // sync.c:44-50
  function UpStep(k: Kernel, s: Sid): Outcome
    requires Formed(k) && s in k.sems
  {
    var sem := k.sems[s];
    var more := (sem.value + 1) % VALUE_LIMIT;
    if sem.waiting == [] then Next(Goto(k.(sems := k.sems[s := sem.(value := more)]), Client))
    else
      match Unblock(k, sem.waiting[0])
      case Next(w) => Next(Goto(w.(sems := k.sems[s := Sem(more, sem.waiting[1..])]), Client))
      case out => out
  }

  // The code of sys_lock_lock and sys_lock_unlock outside the semaphore calls.
  predicate LockPc(pc: Pc)
  {
    !pc.Client? && !pc.Down? && !pc.Retest? && !pc.Up?
  }

  function LockCode(k: Kernel): Outcome
    requires k.running in k.threads && LockPc(k.threads[k.running].pc) && k.threads[k.running].pc.l in k.locks
  {
    var self := k.running;
    var th := k.threads[self];
    var l := th.pc.l;
    var v := k.locks[l];
    match th.pc
    case LockTest(_) => Next(Goto(k, if v.holder != Some(self) then Down(l) else Again(l)))
    case SetHolder(_) => Next(Goto(WithLock(k, l, v.(holder := Some(self))), CheckZero(l)))
    case CheckZero(_) => if v.count == 0 then Next(Goto(k, SetCount(l))) else Halt(60)
    case SetCount(_) => Next(GotoNest(WithLock(k, l, v.(count := 1)), Client, l, 1))
    case Again(_) =>
      Next(GotoNest(WithLock(k, l, v.(count := (v.count + 1) % COUNT_LIMIT)), Client, l, Nest(th, l) + 1))
    case CheckHolder(_) => if v.holder == Some(self) then Next(Goto(k, UnlockTest(l))) else Halt(71)
    case UnlockTest(_) => Next(Goto(k, if v.count > 1 then Drop(l) else CheckOne(l)))
    case Drop(_) =>
      Next(GotoNest(WithLock(k, l, v.(count := if v.count == 0 then COUNT_LIMIT - 1 else v.count - 1)), Client, l,
                    if Nest(th, l) == 0 then 0 else Nest(th, l) - 1))
    case CheckOne(_) => if v.count == 1 then Next(Goto(k, ClearCount(l))) else Halt(77)
    case ClearCount(_) => Next(GotoNest(WithLock(k, l, v.(count := 0)), ClearHolder(l), l, 0))
    case ClearHolder(_) => Next(Goto(WithLock(k, l, v.(holder := None)), Up(l)))
  }

  // The running thread executes the code at its pc.
  function Execute(k: Kernel): Outcome
    requires Formed(k)
  {
    var pc := k.threads[k.running].pc;
    assert PcOk(k, pc);
    match pc
    case Client => Disabled
    case Down(s) => DownStep(k, s)
    case Retest(s) => DownStep(k, s)
    case Up(s) => UpStep(k, s)
    case _ => LockCode(k)
  }

  // The entry points of sync.c a client may call.
  predicate EntryPoint(k: Kernel, pc: Pc)
  {
    match pc
    case LockTest(l) => l in k.locks
    case CheckHolder(l) => l in k.locks
    case Down(s) => s in k.sems && s !in k.locks
    case Up(s) => s in k.sems && s !in k.locks
    case _ => false
  }

  function Step(k: Kernel, a: Action): Outcome
    requires Formed(k)
  {
    match a
    case Tick => Timer(k)
    case Advance => Execute(k)
    case Call(pc) =>
      if k.threads[k.running].pc.Client? && EntryPoint(k, pc) then Next(Goto(k, pc)) else Disabled
    case Spawn(t, p) =>
      if t in k.threads || !k.threads[k.running].pc.Client? then Disabled
      else Next(k.(threads := k.threads[t := Thread(Ready, Client, p, p, map[])], ready := k.ready + [t]))
  }

  // A caller releases only locks it has taken, and does not nest one 2^32 deep.
  predicate BalancedCall(k: Kernel, a: Action)
    requires k.running in k.threads
  {
    match a
    case Call(CheckHolder(l)) => Nest(k.threads[k.running], l) > 0
    case Call(LockTest(l)) => Nest(k.threads[k.running], l) + 1 < 0x1_0000_0000
    case _ => true
  }
}
