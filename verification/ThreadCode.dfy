// The scheduler, timer, semaphore and lock code as it updates PCBs, lock variables and the intrusive
// lists in place (source/thread/thread.c, source/thread/sync.c, source/device/timer.c:36-54), and the
// steps of Threads it carries out.
module ThreadCode {
  import opened Basics
  import opened Threads
  import opened ThreadLists
  import opened SchedulerProofs
  import opened LockProofs
  import opened ThreadRuns
  import opened Turns

  // struct semaphore: the value, then waiting_thread_list.
  function WaitList(s: Sid): nat { s + 1 }

  // The lists are the ready list and one waiting list per semaphore.
  ghost predicate Fits(heads: set<nat>, readyList: nat, sids: set<Sid>)
  {
    heads == {readyList} + (set s | s in sids :: WaitList(s)) && forall s | s in sids :: WaitList(s) != readyList
  }

  ghost function Sems(values: map<Sid, nat>, lists: Lists, readyList: nat): map<Sid, Sem>
    requires Fits(lists.Keys, readyList, values.Keys)
  {
    map s | s in values :: Sem(values[s], lists[WaitList(s)])
  }

  ghost function ReadyIn(lists: Lists, readyList: nat, values: map<Sid, nat>): seq<Tid>
    requires Fits(lists.Keys, readyList, values.Keys)
  {
    lists[readyList]
  }

  class Cpu {
    const queues: Queues           // ready_thread_list and the waiting lists, in memory
    const readyList: nat
    var threads: map<Tid, Thread>
    var running: Tid               // GetCurrentThreadPCB()
    var values: map<Sid, nat>      // semaphore.value
    var locks: map<Sid, Lock>

    ghost predicate Valid()
      reads this, queues, queues.ram
    {
      queues.Valid() && queues.pcbs == threads.Keys && Fits(queues.lists.Keys, readyList, values.Keys)
    }

    // What the memory and the variables stand for.
    ghost function State(): Kernel
      reads this, queues, queues.ram
      requires Valid()
    {
      Kernel(threads, ReadyIn(queues.lists, readyList, values), running, Sems(values, queues.lists, readyList), locks)
    }

    // thread.c:179-188: the main thread runs, all lists are empty.
    constructor (queues: Queues, readyList: nat, main: Tid, priority: nat, values: map<Sid, nat>, locks: set<Sid>)
      requires queues.Valid() && queues.pcbs == {main} && Fits(queues.lists.Keys, readyList, values.Keys)
      requires forall l | l in queues.lists :: queues.lists[l] == []
      requires locks <= values.Keys && forall l | l in locks :: values[l] == 1
      ensures Valid() && Inv(State()) && running == main
    {
      hide Queues.Valid, Inv, Fits;
      this.queues, this.readyList := queues, readyList;
      threads := map[main := Thread(Running, Client, priority, priority, map[])];
      running, this.values := main, values;
      this.locks := map l | l in locks :: Lock(None, 0);
      new;
      StartInv(main, priority, values, locks);
      NothingQueued(values, queues.lists, readyList);
    }

    // ----- the lists, seen in the state

    // list_append on ready_thread_list
    method AppendReady(t: Tid)
      requires Valid() && t in threads && OnNoList(queues.lists, t)
      modifies queues, queues.ram
      ensures Valid() && State() == old(State()).(ready := old(State()).ready + [t])
    {
      hide Queues.Valid, OnNoList;
      ReadyIsList(queues.lists, readyList, values);
      ghost var lists := queues.lists;
      queues.Append(readyList, t);
      ReadyChanged(values, lists, queues.lists, readyList);
    }

    // list_push on ready_thread_list
    method PushReady(t: Tid)
      requires Valid() && t in threads && OnNoList(queues.lists, t)
      modifies queues, queues.ram
      ensures Valid() && State() == old(State()).(ready := [t] + old(State()).ready)
    {
      hide Queues.Valid, OnNoList;
      ReadyIsList(queues.lists, readyList, values);
      ghost var lists := queues.lists;
      queues.Push(readyList, t);
      ReadyChanged(values, lists, queues.lists, readyList);
    }

    // list_pop on ready_thread_list
    method PopReady() returns (t: Tid)
      requires Valid() && State().ready != []
      modifies queues, queues.ram
      ensures Valid() && t == old(State()).ready[0] && State() == old(State()).(ready := old(State()).ready[1..])
    {
      hide Queues.Valid, OnNoList;
      ReadyIsList(queues.lists, readyList, values);
      ghost var lists := queues.lists;
      t := queues.Pop(readyList);
      ReadyChanged(values, lists, queues.lists, readyList);
    }

    // list_append on a waiting list
    method AppendWait(s: Sid, t: Tid)
      requires Valid() && s in values && t in threads && OnNoList(queues.lists, t)
      modifies queues, queues.ram
      ensures Valid() && var k := old(State()); s in k.sems && State() == k.(sems := k.sems[s := k.sems[s].(waiting := k.sems[s].waiting + [t])])
    {
      hide Queues.Valid, OnNoList;
      WaitIsList(queues.lists, readyList, values, s);
      ghost var lists := queues.lists;
      queues.Append(WaitList(s), t);
      WaitChanged(values, lists, queues.lists, readyList, s);
    }

    // list_pop on a waiting list
    method PopWait(s: Sid) returns (t: Tid)
      requires Valid() && s in values && s in State().sems && State().sems[s].waiting != []
      modifies queues, queues.ram
      ensures Valid() && var k := old(State());
              && s in k.sems && t == k.sems[s].waiting[0]
              && State() == k.(sems := k.sems[s := k.sems[s].(waiting := k.sems[s].waiting[1..])])
      ensures OnNoList(queues.lists, t)
    {
      hide Queues.Valid, OnNoList;
      WaitIsList(queues.lists, readyList, values, s);
      ghost var lists := queues.lists;
      t := queues.Pop(WaitList(s));
      WaitChanged(values, lists, queues.lists, readyList, s);
    }

    // elem_find and list_empty
    method InReady(t: Tid) returns (found: bool)
      requires Valid()
      ensures found <==> t in State().ready
    {
      ReadyIsList(queues.lists, readyList, values);
      hide Queues.Valid;
      found := queues.Has(readyList, t);
    }

    method InWait(s: Sid, t: Tid) returns (found: bool)
      requires Valid() && s in values
      ensures s in State().sems && (found <==> t in State().sems[s].waiting)
    {
      WaitIsList(queues.lists, readyList, values, s);
      hide Queues.Valid;
      found := queues.Has(WaitList(s), t);
    }

    method ReadyEmpty() returns (empty: bool)
      requires Valid()
      ensures empty <==> State().ready == []
    {
      ReadyIsList(queues.lists, readyList, values);
      hide Queues.Valid;
      empty := queues.IsEmpty(readyList);
    }

    method WaitEmpty(s: Sid) returns (empty: bool)
      requires Valid() && s in values
      ensures s in State().sems && (empty <==> State().sems[s].waiting == [])
    {
      WaitIsList(queues.lists, readyList, values, s);
      hide Queues.Valid;
      empty := queues.IsEmpty(WaitList(s));
    }

    // ----- thread.c and timer.c

    // thread.c:47-75. Stops at line 65 exactly when the caller has blocked and nobody is ready.
    method ScheduleThread() returns (halted: Option<nat>)
      requires Valid() && Queued(State())
      modifies this`threads, this`running, queues, queues.ram
      ensures Valid()
      ensures match Schedule(old(State()))
              case Next(k) => halted == None && State() == k && SchedInv(k)
              case Halt(line) => halted == Some(65) && line == 65 && State() == old(State())
              case Disabled => false
    {
      hide WaitOk, ReadyOk, Queues.Valid, Sems, ReadyIn, Fits;
      ghost var k := State();
      ScheduleKeeps(k);
      if threads[running].status.Running? {
        Requeue();
      }
      var empty := ReadyEmpty();
      if empty { return Some(65); }
      DispatchFirst();
      return None;
    }

    // thread.c:54-58
    method Requeue()
      requires Valid() && Queued(State()) && threads[running].status.Running?
      modifies this`threads, queues, queues.ram
      ensures Valid()
      ensures var k := old(State());
              State() == k.(threads := k.threads[k.running := k.threads[k.running].(status := Ready, ticksLeft := k.threads[k.running].priority)],
                            ready := k.ready + [k.running])
    {
      hide WaitOk, ReadyOk, Queues.Valid, Sems, ReadyIn, Fits, OnNoList;
      FreeTag(State(), running);
      NoListOf(running);
      var found := InReady(running);
      assert !found;                              // the ASSERT of thread.c:54
      AppendReady(running);
      threads := threads[running := threads[running].(ticksLeft := threads[running].priority)];
      threads := threads[running := threads[running].(status := Ready)];
    }

    // thread.c:68-74
    method DispatchFirst()
      requires Valid() && State().ready != [] && forall t | t in State().ready :: t in threads
      modifies this`threads, this`running, queues, queues.ram
      ensures Valid() && Dispatch(old(State())) == Next(State())
    {
      hide Queues.Valid, Sems, ReadyIn, Fits;
      assert State().ready[0] in State().ready;
      var next := PopReady();
      threads := threads[next := threads[next].(status := Running)];
      running := next;
    }

    // thread.c:145-155
    method BlockThread() returns (halted: Option<nat>)
      requires Valid() && running in threads && Queued(Stopped(State()))
      modifies this`threads, this`running, queues, queues.ram
      ensures Valid()
      ensures match Schedule(Stopped(old(State())))
              case Next(k) => halted == None && State() == k && SchedInv(k)
              case Halt(line) => halted == Some(65) && line == 65
              case Disabled => false
    {
      hide WaitOk, ReadyOk, Queues.Valid, Sems, ReadyIn, Fits;
      threads := threads[running := threads[running].(status := Blocked)];
      halted := ScheduleThread();
    }

    // thread.c:157-176: the thread goes to the front of the ready list.
    method UnblockThread(t: Tid)
      requires Valid() && t in threads && threads[t].status.Blocked? && OnNoList(queues.lists, t)
      modifies this`threads, queues, queues.ram
      ensures Valid() && Unblock(old(State()), t) == Next(State())
      ensures State().ready == [t] + old(State()).ready && threads[t].status.Ready?
    {
      hide Queues.Valid, Sems, ReadyIn, Fits, OnNoList;
      NotReady(t);
      var found := InReady(t);
      assert !found;                              // the ASSERT of thread.c:165
      PushReady(t);
      threads := threads[t := threads[t].(status := Ready)];
    }

    // What a tick does to the running thread's clock and to the queue.
    lemma TickFacts(k: Kernel)
      requires SchedInv(k) && !k.threads[k.running].pc.Retest?
      ensures Timer(k).Next? && SchedInv(Timer(k).k)
      ensures var k', t, left := Timer(k).k, k.running, k.threads[k.running].ticksLeft;
              && t in k'.threads && k'.threads[t].ticksLeft == (if left == 0 then k'.threads[t].priority else left - 1)
              && (left > 0 ==> k'.running == t)
              && (left == 0 ==> [k'.running] + k'.ready == k.ready + [t])
    {
      hide WaitOk, ReadyOk;
      ScheduleKeeps(k);
      TickKeeps(k);
      StepClock(k, Tick, k.running);
      StepRunner(k, Tick);
    }

    // timer.c:36-54, with interrupts on
    method IntTimerHandler()
      requires Valid() && SchedInv(State()) && !threads[running].pc.Retest?
      modifies this`threads, this`running, queues, queues.ram
      ensures Valid() && Timer(old(State())) == Next(State()) && SchedInv(State())
      ensures var t, left := old(running), old(threads[running].ticksLeft);
              && t in threads && threads[t].ticksLeft == (if left == 0 then threads[t].priority else left - 1)
              && (left > 0 ==> running == t)
              && (left == 0 ==> [running] + State().ready == old(State().ready) + [t])
    {
      hide WaitOk, ReadyOk, Queues.Valid, Sems, ReadyIn, Fits;
      TickFacts(State());
      ScheduleKeeps(State());
      if threads[running].ticksLeft == 0 {
        var halted := ScheduleThread();
      } else {
        threads := threads[running := threads[running].(ticksLeft := threads[running].ticksLeft - 1)];
      }
    }

    // ----- sync.c

    // sync.c:23-39 up to the point where the caller blocks or has taken the semaphore; a thread woken
    // from the block comes back here. Stops only when it blocks and nobody is ready.
    method SemaphoreDown(s: Sid) returns (halted: Option<nat>)
      requires Valid() && SchedInv(State()) && s in values
      modifies this`threads, this`running, this`values, queues, queues.ram
      ensures Valid() && s in old(State()).sems
      ensures match DownStep(old(State()), s)
              case Next(k) => halted == None && State() == k
              case Halt(line) => halted == Some(65) && line == 65
              case Disabled => false
      ensures halted == None ==>
                && s in State().sems
                && State().sems[s].waiting == old(State()).sems[s].waiting + if old(values[s]) == 0 then [old(running)] else []
    {
      hide WaitOk, ReadyOk, Queues.Valid, ReadyIn, Fits, Schedule, Sems;
      SemOf(values, queues.lists, readyList, s);
      DownQueues(State(), s);
      if values[s] == 0 {
        halted := WaitFor(s);
      } else {
        ValueStored(values, queues.lists, readyList, s, values[s] - 1);
        values := values[s := values[s] - 1];
        threads := threads[running := threads[running].(pc := if s in locks then SetHolder(s) else Client)];
        halted := None;
      }
    }

    // The caller of a down that blocks is last on the waiting list.
    lemma DownQueues(k: Kernel, s: Sid)
      requires SchedInv(k) && s in k.sems
      ensures DownStep(k, s).Next? ==>
                && s in DownStep(k, s).k.sems
                && DownStep(k, s).k.sems[s].waiting == k.sems[s].waiting + if k.sems[s].value == 0 then [k.running] else []
    {
      if k.sems[s].value == 0 {
        SleepKeeps(k, s);
        ScheduleKeeps(Sleep(k, s));
      }
      hide WaitOk, ReadyOk, Schedule;
    }

    // sync.c:29-36
    method WaitFor(s: Sid) returns (halted: Option<nat>)
      requires Valid() && SchedInv(State()) && s in values && values[s] == 0
      modifies this`threads, this`running, queues, queues.ram
      ensures Valid() && s in old(State()).sems
      ensures match DownStep(old(State()), s)
              case Next(k) => halted == None && State() == k
              case Halt(line) => halted == Some(65) && line == 65
              case Disabled => false
    {
      hide WaitOk, ReadyOk, Queues.Valid, Sems, ReadyIn, Fits, OnNoList, Schedule;
      ghost var k := State();
      SemOf(values, queues.lists, readyList, s);
      SleepKeeps(k, s);
      FreeTag(k, running);
      NoListOf(running);
      var found := InWait(s, running);
      assert !found;                              // the ASSERT of sync.c:29
      AppendWait(s, running);
      threads := threads[running := threads[running].(pc := Retest(s))];
      assert Stopped(State()) == Sleep(k, s);
      halted := BlockThread();
    }

    // sync.c:41-52
    method SemaphoreUp(s: Sid)
      requires Valid() && SchedInv(State()) && s in values
      modifies this`threads, this`values, queues, queues.ram
      ensures Valid() && s in old(State()).sems && UpStep(old(State()), s) == Next(State())
    {
      hide WaitOk, ReadyOk, Queues.Valid, ReadyIn, Fits, Sems;
      ghost var k := State();
      SemOf(values, queues.lists, readyList, s);
      var empty := WaitEmpty(s);
      if !empty {
        WakeFacts(k, s);
        WakeFirst(s);
      }
      Raise(s);
    }

    // sync.c:50, and back to the caller
    method Raise(s: Sid)
      requires Valid() && s in values && running in threads
      modifies this`threads, this`values
      ensures Valid() && s in old(State()).sems
      ensures var k := old(State());
              State() == k.(sems := k.sems[s := k.sems[s].(value := (k.sems[s].value + 1) % VALUE_LIMIT)],
                            threads := k.threads[k.running := k.threads[k.running].(pc := Client)])
    {
      hide Queues.Valid, ReadyIn, Fits, Sems;
      SemOf(values, queues.lists, readyList, s);
      ValueStored(values, queues.lists, readyList, s, (values[s] + 1) % VALUE_LIMIT);
      values := values[s := (values[s] + 1) % VALUE_LIMIT];
      threads := threads[running := threads[running].(pc := Client)];
    }

    // sync.c:46-48
    method WakeFirst(s: Sid)
      requires Valid() && s in values && s in State().sems && State().sems[s].waiting != []
      requires var t := State().sems[s].waiting[0]; t in threads && threads[t].status.Blocked?
      modifies this`threads, queues, queues.ram
      ensures Valid() && State() == Woken(old(State()), s)
    {
      hide Queues.Valid, ReadyIn, Fits, OnNoList, Sems;
      var t := PopWait(s);
      UnblockThread(t);
    }

    // sync.c:54-81 outside the semaphore calls: the statement at the running thread's pc. For balanced
    // callers no ASSERT fails and the lock invariant is kept. nest is the caller's record of its own
    // nesting, and no branch reads it.
    method LockStatement()
      requires Valid() && running in threads && LockInv(State()) && LockPc(threads[running].pc) && threads[running].pc.l in locks
      modifies this`threads, this`locks
      ensures Valid() && LockCode(old(State())) == Next(State()) && LockInv(State())
    {
      hide LockInv, Queues.Valid, Sems, ReadyIn, Fits;
      LockAll(State());
      var l := threads[running].pc.l;
      var v, nest := locks[l], Nest(threads[running], l);
      match threads[running].pc {
        case LockTest(_) => Jump(if v.holder != Some(running) then Down(l) else Again(l));
        case SetHolder(_) => locks := locks[l := v.(holder := Some(running))]; Jump(CheckZero(l));
        case CheckZero(_) => assert v.count == 0; Jump(SetCount(l));           // sync.c:60
        case SetCount(_) => locks := locks[l := v.(count := 1)]; JumpNest(Client, l, 1);
        case Again(_) => locks := locks[l := v.(count := (v.count + 1) % COUNT_LIMIT)]; JumpNest(Client, l, nest + 1);
        case CheckHolder(_) => assert v.holder == Some(running); Jump(UnlockTest(l));   // sync.c:71
        case UnlockTest(_) => Jump(if v.count > 1 then Drop(l) else CheckOne(l));
        case Drop(_) =>
          locks := locks[l := v.(count := if v.count == 0 then COUNT_LIMIT - 1 else v.count - 1)];
          JumpNest(Client, l, if nest == 0 then 0 else nest - 1);
        case CheckOne(_) => assert v.count == 1; Jump(ClearCount(l));          // sync.c:77
        case ClearCount(_) => locks := locks[l := v.(count := 0)]; JumpNest(ClearHolder(l), l, 0);
        case ClearHolder(_) => locks := locks[l := v.(holder := None)]; Jump(Up(l));
      }
    }

    method Jump(pc: Pc)
      requires Valid() && running in threads
      modifies this`threads
      ensures Valid() && State() == Goto(old(State()), pc)
    {
      hide Queues.Valid, Sems, ReadyIn, Fits;
      threads := threads[running := threads[running].(pc := pc)];
    }

    method JumpNest(pc: Pc, l: Sid, n: nat)
      requires Valid() && running in threads
      modifies this`threads
      ensures Valid() && State() == GotoNest(old(State()), pc, l, n)
    {
      hide Queues.Valid, Sems, ReadyIn, Fits;
      threads := threads[running := threads[running].(pc := pc, nest := threads[running].nest[l := n])];
    }

    // thread.c:117-133 as one step: a new thread, on a page of its own, joins the end of the ready list.
    method ThreadStart(t: Tid, priority: nat)
      requires Valid() && Formed(State()) && t !in threads && threads[running].pc.Client?
      requires Placed(queues.lists.Keys, threads.Keys + {t})
      modifies this`threads, queues, queues.ram
      ensures Valid() && Step(old(State()), Spawn(t, priority)) == Next(State())
    {
      hide Queues.Valid, Sems, ReadyIn, Fits, OnNoList, Placed;
      NewTag(t);
      queues.Adopt(t);
      threads := threads[t := Thread(Ready, Client, priority, priority, map[])];
      NotReady(t);
      var found := InReady(t);
      assert !found;                              // the ASSERT of thread.c:126
      AppendReady(t);
    }

    // The scan of thread.c:126 (and of process.c:88) runs with interrupts on. Preempted while it stands
    // on the tag of thread t, and resumed in this state without further interruption, it comes through
    // exactly when t is READY; if t has blocked meanwhile, it follows t's waiting list into NULL.
    method ResumeStart(t: Tid, newcomer: Tid) returns (r: ScanEnd)
      requires Valid() && SchedInv(State()) && t in threads && t != running
      requires newcomer !in threads && Placed(queues.lists.Keys, threads.Keys + {newcomer})
      ensures r == Absent <==> threads[t].status.Ready?
      ensures r == StopsAtNull <==> threads[t].status.Blocked?
    {
      hide Queues.Valid, Sems, ReadyIn, Fits, OnNoList, Placed;
      NewTag(newcomer);
      ghost var m, i := WhereIs(t);
      r := queues.ResumeScan(readyList, t, newcomer, m, i);
    }

    // The one list a thread that does not run is on.
    lemma WhereIs(t: Tid) returns (m: nat, i: nat)
      requires Valid() && SchedInv(State()) && t in threads && t != running
      ensures m in queues.lists && i < |queues.lists[m]| && queues.lists[m][i] == t && readyList in queues.lists
      ensures m == readyList <==> threads[t].status.Ready?
      ensures m != readyList <==> threads[t].status.Blocked?
    {
      hide Queues.Valid;
      var k := State();
      if k.threads[t].status.Ready? {
        assert t in k.ready;
        m := readyList;
      } else {
        assert k.threads[t].status.Blocked?;
        var s := k.threads[t].pc.s;
        assert t in k.sems[s].waiting;
        m := WaitList(s);
      }
      i :| 0 <= i < |queues.lists[m]| && queues.lists[m][i] == t;
    }

    // ----- the whole

    // One step of the kernel, whichever thread's turn it is, at whatever point the timer fires. While
    // some thread never blocks, no ASSERT fails, and every invariant is kept.
    method TakeStep(a: Action, ghost idle: Tid) returns (done: bool)
      requires Valid() && Inv(State()) && Awake(State(), idle) && Allowed(State(), a, idle)
      requires a.Spawn? && a.t !in threads ==> Placed(queues.lists.Keys, threads.Keys + {a.t})
      modifies this`threads, this`running, this`values, this`locks, queues, queues.ram
      ensures Valid() && Inv(State()) && Awake(State(), idle)
      ensures Step(old(State()), a) == if done then Next(State()) else Disabled
      ensures !done ==> State() == old(State())
    {
      hide Inv, Awake, Allowed, Queues.Valid, WaitOk, ReadyOk, Sems, ReadyIn, Fits, Execute, Timer;
      ghost var k := State();
      StepSafe(k, a, idle);
      InvParts(k);
      match a {
        case Tick =>
          TickDisabled(k);
          if threads[running].pc.Retest? { return false; }
          IntTimerHandler();
        case Advance =>
          ClientWaits(k);
          if threads[running].pc.Client? { return false; }
          RunStatement();
        case Call(pc) =>
          EntriesAgree(values, queues.lists, readyList, k, pc);
          if !threads[running].pc.Client? || !MayEnter(pc) { return false; }
          Jump(pc);
        case Spawn(t, p) =>
          if t in threads || !threads[running].pc.Client? { return false; }
          ThreadStart(t, p);
      }
      return true;
    }

    predicate MayEnter(pc: Pc)
      reads this
    {
      match pc
      case LockTest(l) => l in locks
      case CheckHolder(l) => l in locks
      case Down(s) => s in values && s !in locks
      case Up(s) => s in values && s !in locks
      case _ => false
    }

    // The code at the running thread's pc.
    method RunStatement()
      requires Valid() && SchedInv(State()) && LockInv(State()) && !threads[running].pc.Client?
      requires Execute(State()) != Halt(65)
      modifies this`threads, this`running, this`values, this`locks, queues, queues.ram
      ensures Valid() && Execute(old(State())) == Next(State())
    {
      hide LockInv, Queues.Valid, WaitOk, ReadyOk, LockCode, DownStep, UpStep, Sems, ReadyIn, Fits;
      ghost var k := State();
      assert PcOk(k, k.threads[k.running].pc);
      SemKeys(values, queues.lists, readyList);
      var pc := threads[running].pc;
      if pc.Down? || pc.Retest? {
        var halted := SemaphoreDown(pc.s);
      } else if pc.Up? {
        SemaphoreUp(pc.s);
      } else {
        LockStatement();
      }
    }

    // A thread on no list of the state has its tag on no list in memory.
    lemma NoListOf(t: Tid)
      requires Valid() && t !in State().ready && forall s | s in State().sems :: t !in State().sems[s].waiting
      ensures OnNoList(queues.lists, t)
    {
      hide Queues.Valid;
      forall l | l in queues.lists ensures t !in queues.lists[l] {
        if l != readyList {
          var s :| s in values && WaitList(s) == l;
          assert s in State().sems && t !in State().sems[s].waiting;
        }
      }
    }

    lemma NotReady(t: Tid)
      requires Valid() && OnNoList(queues.lists, t)
      ensures t !in State().ready
    {
      hide Queues.Valid;
    }

    // Nor is the tag of a thread that does not exist yet.
    lemma NewTag(t: Tid)
      requires Valid() && t !in threads
      ensures OnNoList(queues.lists, t)
    {
      hide Placed, AllLinked, Fits;
    }
  }

  function Stopped(k: Kernel): Kernel
    requires k.running in k.threads
  {
    k.(threads := k.threads[k.running := k.threads[k.running].(status := Blocked)])
  }

  lemma FreeTag(k: Kernel, t: Tid)
    requires Queued(k) && t in k.threads && k.threads[t].status.Running?
    ensures t !in k.ready && forall s | s in k.sems :: t !in k.sems[s].waiting
  {
  }

  lemma InvParts(k: Kernel)
    requires Inv(k)
    ensures SchedInv(k) && LockInv(k) && k.running in k.threads
  {
  }

  lemma NothingQueued(values: map<Sid, nat>, lists: Lists, readyList: nat)
    requires Fits(lists.Keys, readyList, values.Keys) && forall l | l in lists :: lists[l] == []
    ensures ReadyIn(lists, readyList, values) == [] && Sems(values, lists, readyList) == map s | s in values :: Sem(values[s], [])
  {
  }

  lemma ReadyIsList(lists: Lists, readyList: nat, values: map<Sid, nat>)
    requires Fits(lists.Keys, readyList, values.Keys)
    ensures readyList in lists && ReadyIn(lists, readyList, values) == lists[readyList]
  {
  }

  lemma WaitIsList(lists: Lists, readyList: nat, values: map<Sid, nat>, s: Sid)
    requires Fits(lists.Keys, readyList, values.Keys) && s in values
    ensures WaitList(s) in lists && WaitList(s) != readyList
    ensures s in Sems(values, lists, readyList) && Sems(values, lists, readyList)[s] == Sem(values[s], lists[WaitList(s)])
  {
  }

  lemma SemKeys(values: map<Sid, nat>, lists: Lists, readyList: nat)
    requires Fits(lists.Keys, readyList, values.Keys)
    ensures Sems(values, lists, readyList).Keys == values.Keys
  {
  }

  lemma SemOf(values: map<Sid, nat>, lists: Lists, readyList: nat, s: Sid)
    requires Fits(lists.Keys, readyList, values.Keys) && s in values
    ensures s in Sems(values, lists, readyList) && Sems(values, lists, readyList)[s].value == values[s]
  {
  }

  lemma ReadyChanged(values: map<Sid, nat>, lists: Lists, lists': Lists, readyList: nat)
    requires Fits(lists.Keys, readyList, values.Keys)
    requires readyList in lists' && lists' == lists[readyList := lists'[readyList]]
    ensures Fits(lists'.Keys, readyList, values.Keys) && ReadyIn(lists', readyList, values) == lists'[readyList]
    ensures Sems(values, lists', readyList) == Sems(values, lists, readyList)
  {
    assert lists'.Keys == lists.Keys;
  }

  lemma WaitChanged(values: map<Sid, nat>, lists: Lists, lists': Lists, readyList: nat, s: Sid)
    requires Fits(lists.Keys, readyList, values.Keys) && s in values
    requires WaitList(s) in lists' && lists' == lists[WaitList(s) := lists'[WaitList(s)]]
    ensures Fits(lists'.Keys, readyList, values.Keys) && ReadyIn(lists', readyList, values) == ReadyIn(lists, readyList, values)
    ensures Sems(values, lists', readyList) == Sems(values, lists, readyList)[s := Sem(values[s], lists'[WaitList(s)])]
  {
    assert lists'.Keys == lists.Keys;
  }

  lemma ValueStored(values: map<Sid, nat>, lists: Lists, readyList: nat, s: Sid, v: nat)
    requires Fits(lists.Keys, readyList, values.Keys) && s in values
    ensures Fits(lists.Keys, readyList, values[s := v].Keys) && s in Sems(values, lists, readyList)
    ensures Sems(values[s := v], lists, readyList) == Sems(values, lists, readyList)[s := Sems(values, lists, readyList)[s].(value := v)]
    ensures ReadyIn(lists, readyList, values[s := v]) == ReadyIn(lists, readyList, values)
  {
    assert values[s := v].Keys == values.Keys;
  }

  lemma TickDisabled(k: Kernel)
    requires Formed(k)
    ensures k.threads[k.running].pc.Retest? ==> Timer(k) == Disabled
  {
  }

  lemma ClientWaits(k: Kernel)
    requires Formed(k)
    ensures k.threads[k.running].pc.Client? ==> Execute(k) == Disabled
  {
  }

  // The entry test reads the same variables.
  lemma EntriesAgree(values: map<Sid, nat>, lists: Lists, readyList: nat, k: Kernel, pc: Pc)
    requires Fits(lists.Keys, readyList, values.Keys) && k.sems == Sems(values, lists, readyList)
    ensures k.sems.Keys == values.Keys
  {
  }
}
