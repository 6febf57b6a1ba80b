// What every step of the scheduler, the semaphores and the locks keeps.

/** The scheduler: one running thread, and every thread on the one list its status calls for. */
module SchedulerProofs {
  import opened Basics
  import opened Threads

  lemma TailOf(s: seq<Tid>)
    requires Distinct(s) && s != []
    ensures Distinct(s[1..])
    ensures forall t :: t in s[1..] <==> t in s && t != s[0]
  {
    assert s == [s[0]] + s[1..];
  }

  // The ready list holds exactly the READY threads, once each.
  ghost predicate ReadyOk(k: Kernel)
  {
    && Distinct(k.ready)
    && (forall t | t in k.ready :: t in k.threads)
    && (forall t | t in k.threads :: t in k.ready <==> k.threads[t].status.Ready?)
  }

  // The waiting lists hold exactly the blocked threads, each where its pc says.
  ghost predicate WaitOk(k: Kernel)
  {
    && (forall s | s in k.sems :: Distinct(k.sems[s].waiting))
    && (forall s, t | s in k.sems && t in k.sems[s].waiting ::
          t in k.threads && k.threads[t].pc == Retest(s) && k.threads[t].status.Blocked?)
    && (forall t | t in k.threads && k.threads[t].status.Blocked? ::
          k.threads[t].pc.Retest? && k.threads[t].pc.s in k.sems && t in k.sems[k.threads[t].pc.s].waiting)
  }

  // Holds also inside BlockThread, where the running thread is already marked blocked.
  ghost predicate Queued(k: Kernel)
  {
    && Formed(k) && ReadyOk(k) && WaitOk(k)
    && (forall t | t in k.threads :: k.threads[t].status.Running? ==> t == k.running)
  }

  ghost predicate SchedInv(k: Kernel)
  {
    Queued(k) && k.threads[k.running].status.Running?
  }

  // Each general_tag sits on at most one list, and the running thread's on none.
  lemma OneListEach(k: Kernel, t: Tid)
    requires SchedInv(k) && t in k.threads
    ensures forall u | u in k.threads :: k.threads[u].status.Running? <==> u == k.running
    ensures t in k.ready ==> forall s | s in k.sems :: t !in k.sems[s].waiting
    ensures forall s, s' | s in k.sems && s' in k.sems && t in k.sems[s].waiting && t in k.sems[s'].waiting :: s == s'
    ensures t == k.running ==> t !in k.ready && forall s | s in k.sems :: t !in k.sems[s].waiting
  {
    forall s, s' | s in k.sems && s' in k.sems && t in k.sems[s].waiting && t in k.sems[s'].waiting
      ensures s == s'
    {
      assert Retest(s) == k.threads[t].pc == Retest(s');
    }
  }

  // What a scheduling step leaves alone.
  ghost predicate SameSync(k: Kernel, k': Kernel)
  {
    && k'.sems == k.sems && k'.locks == k.locks && k'.threads.Keys == k.threads.Keys
    && forall t | t in k.threads ::
         && k'.threads[t].pc == k.threads[t].pc && k'.threads[t].nest == k.threads[t].nest
         && (k'.threads[t].status.Blocked? <==> k.threads[t].status.Blocked?)
  }

  lemma SameSyncKeeps(k: Kernel, k': Kernel)
    requires Formed(k) && WaitOk(k) && SameSync(k, k')
    requires k'.running in k'.threads && forall t | t in k'.ready :: t in k'.threads
    ensures Formed(k') && WaitOk(k')
  {
    SameSyncWait(k, k');
    hide WaitOk;
    forall t | t in k'.threads ensures PcOk(k', k'.threads[t].pc) { assert PcOk(k, k.threads[t].pc); }
  }

  lemma SameSyncWait(k: Kernel, k': Kernel)
    requires Formed(k) && WaitOk(k) && SameSync(k, k')
    ensures WaitOk(k')
  {
  }

  lemma DispatchReady(k: Kernel)
    requires ReadyOk(k) && k.ready != []
    ensures k.ready[0] in k.threads && k.threads[k.ready[0]].status.Ready?
    ensures Dispatch(k).Next? && ReadyOk(Dispatch(k).k)
    ensures forall t | t in Dispatch(k).k.ready :: t in k.ready
  {
    assert k.ready[0] in k.ready;
    TailOf(k.ready);
  }

  lemma DispatchKeeps(k: Kernel)
    requires Queued(k) && !k.threads[k.running].status.Running? && k.ready != []
    ensures Dispatch(k).Next? && SchedInv(Dispatch(k).k) && SameSync(k, Dispatch(k).k)
    ensures Dispatch(k).k.running == k.ready[0] && Dispatch(k).k.ready == k.ready[1..]
  {
    var k' := Dispatch(k).k;
    DispatchReady(k);
    hide ReadyOk;
    assert SameSync(k, k');
    SameSyncKeeps(k, k');
  }

  lemma RequeueKeeps(k: Kernel, m: Kernel)
    requires SchedInv(k)
    requires var th := k.threads[k.running];
             m == k.(threads := k.threads[k.running := th.(status := Ready, ticksLeft := th.priority)],
                     ready := k.ready + [k.running])
    ensures k.running !in k.ready && Queued(m) && SameSync(k, m)
  {
    SameSyncKeeps(k, m);
    assert ReadyOk(m);
  }

  // ScheduleThread fails only at line 65, with a blocked thread and nobody ready.
  lemma ScheduleKeeps(k: Kernel)
    requires Queued(k)
    ensures match Schedule(k)
            case Next(k') => SchedInv(k') && SameSync(k, k')
            case Halt(line) => line == 65 && k.threads[k.running].status.Blocked? && k.ready == []
            case Disabled => false
  {
    var cur, th := k.running, k.threads[k.running];
    if th.status.Running? {
      var m := k.(threads := k.threads[cur := th.(status := Ready, ticksLeft := th.priority)], ready := k.ready + [cur]);
      RequeueKeeps(k, m);
      DispatchKeeps(m);
    } else if k.ready != [] {
      DispatchKeeps(k);
    }
  }

  lemma SleepKeeps(k: Kernel, s: Sid)
    requires SchedInv(k) && s in k.sems
    ensures Queued(Sleep(k, s))
  {
    var k' := Sleep(k, s);
    SleepReady(k, s);
    SleepWaits(k, s);
    hide WaitOk, ReadyOk;
    forall t | t in k'.threads ensures PcOk(k', k'.threads[t].pc) { assert PcOk(k, k.threads[t].pc); }
  }

  lemma SleepReady(k: Kernel, s: Sid)
    requires SchedInv(k) && s in k.sems
    ensures ReadyOk(Sleep(k, s))
  {
    hide WaitOk, PcOk;
  }

  lemma SleepWaits(k: Kernel, s: Sid)
    requires SchedInv(k) && s in k.sems
    ensures WaitOk(Sleep(k, s))
  {
    hide ReadyOk, PcOk;
    OneListEach(k, k.running);
  }

  // The kernel between list_pop and value++ in SemaphoreUp, once the popped thread is ready.
  function Woken(k: Kernel, s: Sid): Kernel
    requires s in k.sems && k.sems[s].waiting != [] && k.sems[s].waiting[0] in k.threads
  {
    var w := k.sems[s].waiting;
    k.(ready := [w[0]] + k.ready, threads := k.threads[w[0] := k.threads[w[0]].(status := Ready)],
       sems := k.sems[s := k.sems[s].(waiting := w[1..])])
  }

  lemma WakeFacts(k: Kernel, s: Sid)
    requires SchedInv(k) && s in k.sems && k.sems[s].waiting != []
    ensures var t := k.sems[s].waiting[0];
            t in k.threads && t != k.running && t !in k.ready && k.threads[t].status.Blocked?
  {
    assert k.sems[s].waiting[0] in k.sems[s].waiting;
  }

  lemma UnblockKeeps(k: Kernel, s: Sid)
    requires SchedInv(k) && s in k.sems && k.sems[s].waiting != []
    ensures var t := k.sems[s].waiting[0];
            && t in k.threads && t != k.running && t !in k.ready && k.threads[t].status.Blocked?
            && SchedInv(Woken(k, s))
  {
    WakeFacts(k, s);
    WokenWaits(k, s);
    WokenReady(k, s);
    WokenFormed(k, s);
    hide WaitOk, ReadyOk, Formed;
  }

  lemma WokenFormed(k: Kernel, s: Sid)
    requires Formed(k) && s in k.sems && k.sems[s].waiting != [] && k.sems[s].waiting[0] in k.threads
    ensures Formed(Woken(k, s))
  {
    var k', w := Woken(k, s), k.sems[s].waiting;
    assert forall t | t in w[1..] :: t in w;
    forall t | t in k'.threads ensures PcOk(k', k'.threads[t].pc) { assert PcOk(k, k.threads[t].pc); }
  }

  lemma WokenReady(k: Kernel, s: Sid)
    requires ReadyOk(k) && s in k.sems && k.sems[s].waiting != [] && k.sems[s].waiting[0] in k.threads
    requires k.sems[s].waiting[0] !in k.ready
    ensures ReadyOk(Woken(k, s)) && forall t | t in Woken(k, s).ready :: t in k.threads
  {
  }

  lemma WokenWaits(k: Kernel, s: Sid)
    requires WaitOk(k) && s in k.sems && k.sems[s].waiting != [] && k.sems[s].waiting[0] in k.threads
    ensures WaitOk(Woken(k, s))
    ensures forall s', u | s' in k.sems && u in Woken(k, s).sems[s'].waiting :: u in k.sems[s'].waiting
  {
    var w := k.sems[s].waiting;
    assert w[0] in w && w == [w[0]] + w[1..];
    var k' := Woken(k, s);
    forall s', u | s' in k'.sems && u in k'.sems[s'].waiting
      ensures u in k'.threads && k'.threads[u].pc == Retest(s') && k'.threads[u].status.Blocked?
    {
      assert u in k.sems[s'].waiting;
    }
  }

  // A step that only moves the running thread's pc between non-waiting points, its nest record,
  // lock variables or semaphore values.
  ghost predicate Local(k: Kernel, k': Kernel)
  {
    && k'.ready == k.ready && k'.running == k.running && k'.threads.Keys == k.threads.Keys
    && k.running in k.threads
    && (forall t | t in k.threads && t != k.running :: k'.threads[t] == k.threads[t])
    && k'.threads[k.running].status.Running? && PcOk(k', k'.threads[k.running].pc)
    && k'.locks.Keys == k.locks.Keys && k'.sems.Keys == k.sems.Keys
    && (forall s | s in k.sems :: k'.sems[s].waiting == k.sems[s].waiting)
  }

  lemma LocalKeeps(k: Kernel, k': Kernel)
    requires SchedInv(k) && Local(k, k')
    ensures SchedInv(k')
  {
    OneListEach(k, k.running);
    forall t | t in k'.threads ensures PcOk(k', k'.threads[t].pc) {
      if t != k.running { assert PcOk(k, k.threads[t].pc); }
    }
    assert WaitOk(k');
    assert ReadyOk(k');
  }

  // The lock or semaphore a pc is about.
  function Subject(pc: Pc): Option<Sid>
  {
    match pc
    case Client => None
    case Down(s) => Some(s)
    case Retest(s) => Some(s)
    case Up(s) => Some(s)
    case _ => Some(pc.l)
  }

  // What sync.c:56-65 and 71-79 leave alone.
  lemma LockCodeFrame(k: Kernel)
    requires k.running in k.threads && LockPc(k.threads[k.running].pc) && k.threads[k.running].pc.l in k.locks
    requires LockCode(k).Next?
    ensures var k', m := LockCode(k).k, k.threads[k.running].pc.l;
            && k'.threads == k.threads[k.running := k'.threads[k.running]]
            && k'.ready == k.ready && k'.running == k.running
            && k'.threads[k.running].status == k.threads[k.running].status
            && !k'.threads[k.running].pc.Retest?
            && k'.sems == k.sems && k'.locks == k.locks[m := k'.locks[m]]
            && (Subject(k'.threads[k.running].pc) == None || Subject(k'.threads[k.running].pc) == Some(m))
            && forall l | l != m :: Nest(k'.threads[k.running], l) == Nest(k.threads[k.running], l)
  {
    var th := k.threads[k.running];
    match th.pc {
      case LockTest(_) =>
      case SetHolder(_) =>
      case CheckZero(_) =>
      case SetCount(_) =>
      case Again(_) =>
      case CheckHolder(_) =>
      case UnlockTest(_) =>
      case Drop(_) =>
      case CheckOne(_) =>
      case ClearCount(_) =>
      case ClearHolder(_) =>
    }
  }

  lemma LockCodeLocal(k: Kernel)
    requires Formed(k) && k.threads[k.running].status.Running? && LockPc(k.threads[k.running].pc)
    ensures k.threads[k.running].pc.l in k.locks
    ensures Execute(k) == LockCode(k)
    ensures LockCode(k).Next? ==>
              && Local(k, LockCode(k).k) && LockCode(k).k.sems == k.sems
              && !LockCode(k).k.threads[k.running].pc.Retest?
  {
    assert PcOk(k, k.threads[k.running].pc);
    if LockCode(k).Next? { LockCodeFrame(k); }
  }

  // Every step of every thread keeps the scheduler's invariant; the only ASSERT of thread.c that
  // can fail is line 65, when the last thread able to run blocks.
  lemma StepKeepsSched(k: Kernel, a: Action)
    requires SchedInv(k)
    ensures match Step(k, a)
            case Next(k') => SchedInv(k')
            case Halt(line) => line in {60, 71, 77} || (line == 65 && k.ready == [])
            case Disabled => true
  {
    match a {
      case Tick => TickKeeps(k);
      case Spawn(t, p) => if Step(k, a).Next? { SpawnKeeps(k, t, p); }
      case Call(pc) => if Step(k, a).Next? { LocalKeeps(k, Step(k, a).k); }
      case Advance => ExecuteKeeps(k);
    }
  }

  lemma TickKeeps(k: Kernel)
    requires SchedInv(k)
    ensures !Timer(k).Halt? && (Timer(k).Next? ==> SchedInv(Timer(k).k))
  {
    var th := k.threads[k.running];
    if th.ticksLeft == 0 {
      ScheduleKeeps(k);
    } else if !th.pc.Retest? {
      LocalKeeps(k, Timer(k).k);
    }
  }

  lemma ExecuteKeeps(k: Kernel)
    requires SchedInv(k)
    ensures match Execute(k)
            case Next(k') => SchedInv(k')
            case Halt(line) => line in {60, 71, 77} || (line == 65 && k.ready == [])
            case Disabled => true
  {
    var pc := k.threads[k.running].pc;
    assert PcOk(k, pc);
    if pc.Down? || pc.Retest? {
      DownKeeps(k, pc.s);
    } else if pc.Up? {
      UpKeeps(k, pc.s);
    } else if !pc.Client? {
      LockCodeLocal(k);
      if LockCode(k).Next? { LocalKeeps(k, LockCode(k).k); }
    }
  }

  lemma SpawnKeeps(k: Kernel, t: Tid, p: nat)
    requires SchedInv(k) && Step(k, Spawn(t, p)).Next?
    ensures SchedInv(Step(k, Spawn(t, p)).k)
  {
    var k' := Step(k, Spawn(t, p)).k;
    forall u | u in k'.threads ensures PcOk(k', k'.threads[u].pc) { if u != t { assert PcOk(k, k.threads[u].pc); } }
    assert ReadyOk(k');
    assert WaitOk(k');
  }

  lemma DownKeeps(k: Kernel, s: Sid)
    requires SchedInv(k) && s in k.sems
    ensures match DownStep(k, s)
            case Next(k') => SchedInv(k')
            case Halt(line) => line == 65 && k.ready == []
            case Disabled => false
  {
    OneListEach(k, k.running);
    if k.sems[s].value == 0 {
      SleepKeeps(k, s);
      ScheduleKeeps(Sleep(k, s));
    } else {
      LocalKeeps(k, DownStep(k, s).k);
    }
  }

  // SemaphoreUp after any wakeup only raises the value and returns.
  lemma UpLocal(k: Kernel, s: Sid)
    requires SchedInv(k) && s in k.sems
    ensures UpStep(k, s).Next?
    ensures k.sems[s].waiting == [] ==> Local(k, UpStep(k, s).k)
    ensures k.sems[s].waiting != [] ==> k.sems[s].waiting[0] in k.threads && Local(Woken(k, s), UpStep(k, s).k)
  {
    if k.sems[s].waiting != [] { WakeFacts(k, s); }
    hide WaitOk, ReadyOk;
  }

  lemma UpKeeps(k: Kernel, s: Sid)
    requires SchedInv(k) && s in k.sems
    ensures UpStep(k, s).Next? && SchedInv(UpStep(k, s).k)
  {
    hide WaitOk, ReadyOk, Local, UpStep;
    UpLocal(k, s);
    if k.sems[s].waiting == [] {
      LocalKeeps(k, UpStep(k, s).k);
    } else {
      UnblockKeeps(k, s);
      LocalKeeps(Woken(k, s), UpStep(k, s).k);
    }
  }
}

/** Semaphores: no wakeup is lost. */
module SemaphoreProofs {
  import opened Threads
  import opened SchedulerProofs

  // Threads taken off the waiting list of s that have not yet tested its value again.
  ghost function Pending(k: Kernel, s: Sid): set<Tid>
  {
    set t | t in k.threads && k.threads[t].pc == Retest(s) && !k.threads[t].status.Blocked?
  }

  // While somebody waits, every unit of the value has a woken thread on its way to take it.
  ghost predicate WakeOk(k: Kernel, s: Sid)
    requires s in k.sems
  {
    k.sems[s].waiting != [] ==> |Pending(k, s)| >= k.sems[s].value
  }

  ghost predicate WakeInv(k: Kernel)
  {
    forall s | s in k.sems :: WakeOk(k, s)
  }

  // The woken thread is on the ready list or running: it will get to its re-test.
  lemma NoLostWakeup(k: Kernel, s: Sid) returns (t: Tid)
    requires SchedInv(k) && WakeInv(k) && s in k.sems
    requires k.sems[s].waiting != [] && k.sems[s].value > 0
    ensures t in k.threads && k.threads[t].pc == Retest(s) && (t == k.running || t in k.ready)
  {
    assert WakeOk(k, s);
    var p := Pending(k, s);
    assert p != {};
    t :| t in p;
  }

  // Semaphores of which the step changes neither the record nor the pending threads.
  lemma Untouched(k: Kernel, k': Kernel, s: Sid)
    requires s in k.sems && WakeOk(k, s) && s in k'.sems && k'.sems[s] == k.sems[s]
    requires forall t | t in k'.threads && k'.threads[t].pc == Retest(s) && !k'.threads[t].status.Blocked? ::
               t in k.threads && k.threads[t].pc == Retest(s) && !k.threads[t].status.Blocked?
    requires forall t | t in k.threads && k.threads[t].pc == Retest(s) && !k.threads[t].status.Blocked? ::
               t in k'.threads && k'.threads[t].pc == Retest(s) && !k'.threads[t].status.Blocked?
    ensures WakeOk(k', s)
  {
    assert Pending(k', s) == Pending(k, s);
  }

  lemma SameSyncWake(k: Kernel, k': Kernel)
    requires WakeInv(k) && SameSync(k, k')
    ensures WakeInv(k')
  {
    forall s | s in k'.sems ensures WakeOk(k', s) { Untouched(k, k', s); }
  }

  lemma LocalWake(k: Kernel, k': Kernel)
    requires SchedInv(k) && WakeInv(k) && Local(k, k') && k'.sems == k.sems
    requires k.threads[k.running].pc == k'.threads[k.running].pc ||
             (!k.threads[k.running].pc.Retest? && !k'.threads[k.running].pc.Retest?)
    ensures WakeInv(k')
  {
    hide WaitOk, ReadyOk, WakeOk;
    forall s | s in k'.sems ensures WakeOk(k', s) { Untouched(k, k', s); }
  }

  lemma SleepWake(k: Kernel, s: Sid)
    requires SchedInv(k) && WakeInv(k) && s in k.sems && k.sems[s].value == 0
    requires k.threads[k.running].pc in {Down(s), Retest(s)}
    ensures WakeInv(Sleep(k, s))
  {
    var k' := Sleep(k, s);
    forall s' | s' in k'.sems ensures WakeOk(k', s') { if s' != s { Untouched(k, k', s'); } }
  }

  lemma TakeWake(k: Kernel, s: Sid)
    requires SchedInv(k) && WakeInv(k) && s in k.sems && k.sems[s].value > 0
    requires k.threads[k.running].pc in {Down(s), Retest(s)}
    ensures DownStep(k, s).Next? && WakeInv(DownStep(k, s).k)
  {
    TakenOwn(k, s);
    hide WaitOk, ReadyOk, PcOk, WakeOk;
    var k' := DownStep(k, s).k;
    forall s' | s' in k'.sems ensures WakeOk(k', s') { if s' != s { Untouched(k, k', s'); } }
  }

  lemma TakenOwn(k: Kernel, s: Sid)
    requires SchedInv(k) && WakeInv(k) && s in k.sems && k.sems[s].value > 0
    requires k.threads[k.running].pc in {Down(s), Retest(s)}
    ensures DownStep(k, s).Next? && s in DownStep(k, s).k.sems && WakeOk(DownStep(k, s).k, s)
  {
    hide WaitOk, ReadyOk, PcOk;
    assert WakeOk(k, s);
    assert Pending(DownStep(k, s).k, s) == Pending(k, s) - {k.running};
  }

  lemma WokenWake(k: Kernel, s: Sid)
    requires SchedInv(k) && WakeInv(k) && s in k.sems && k.sems[s].waiting != []
    ensures var w := k.sems[s].waiting[0];
            && w in k.threads
            && |Pending(Woken(k, s), s)| == |Pending(k, s)| + 1
            && forall s' | s' in k.sems && s' != s :: WakeOk(Woken(k, s), s')
  {
    WakeFacts(k, s);
    var k' := Woken(k, s);
    var w := k.sems[s].waiting[0];
    assert w in k.sems[s].waiting;
    assert k.threads[w].pc == Retest(s);
    hide WaitOk, ReadyOk;
    assert Pending(k', s) == Pending(k, s) + {w};
    forall s' | s' in k.sems && s' != s ensures WakeOk(k', s') { Untouched(k, k', s'); }
  }

  // The end of SemaphoreUp: the caller leaves, the value grows.
  lemma LeaveUp(k: Kernel, k': Kernel, s: Sid)
    requires k.running in k.threads && s in k.sems && k.threads[k.running].pc == Up(s)
    requires k'.sems.Keys == k.sems.Keys && k'.threads == Goto(k, Client).threads
    requires forall s' | s' in k.sems && s' != s :: k'.sems[s'] == k.sems[s'] && WakeOk(k, s')
    requires k'.sems[s].waiting != [] ==> |Pending(k, s)| >= k'.sems[s].value
    ensures WakeInv(k')
  {
    assert Pending(k', s) == Pending(k, s);
    assert WakeOk(k', s);
    hide WakeOk;
    forall s' | s' in k'.sems ensures WakeOk(k', s') { if s' != s { Untouched(k, k', s'); } }
  }

  lemma UpStepShape(k: Kernel, s: Sid)
    requires SchedInv(k) && s in k.sems && k.sems[s].waiting != []
    ensures k.sems[s].waiting[0] in k.threads && UpStep(k, s).Next?
    ensures var w, k' := Woken(k, s), UpStep(k, s).k;
            && w.running == k.running && k.running in w.threads && w.threads[k.running] == k.threads[k.running]
            && k'.threads == Goto(w, Client).threads
            && k'.sems == w.sems[s := Sem((k.sems[s].value + 1) % VALUE_LIMIT, w.sems[s].waiting)]
  {
    WakeFacts(k, s);
    hide WaitOk, ReadyOk;
    assert UpStep(k, s).k.sems == Woken(k, s).sems[s := Sem((k.sems[s].value + 1) % VALUE_LIMIT, Woken(k, s).sems[s].waiting)];
  }

  lemma UpWake(k: Kernel, s: Sid)
    requires SchedInv(k) && WakeInv(k) && s in k.sems && k.threads[k.running].pc == Up(s)
    ensures UpStep(k, s).Next? && WakeInv(UpStep(k, s).k)
  {
    hide WaitOk, ReadyOk, Pending;
    if k.sems[s].waiting == [] {
      LeaveUp(k, UpStep(k, s).k, s);
    } else {
      UpStepShape(k, s);
      WokenWake(k, s);
      assert WakeOk(k, s);
      LeaveUp(Woken(k, s), UpStep(k, s).k, s);
    }
  }

  lemma StepKeepsWake(k: Kernel, a: Action)
    requires SchedInv(k) && WakeInv(k)
    ensures Step(k, a).Next? ==> WakeInv(Step(k, a).k)
  {
    hide WaitOk, ReadyOk, WakeInv;
    if Step(k, a).Next? {
      var k' := Step(k, a).k;
      match a {
        case Tick => TickWake(k);
        case Call(_) => LocalWake(k, k');
        case Spawn(t, p) => NewcomerWake(k, k', t);
        case Advance => ExecuteWake(k);
      }
    }
  }

  lemma TickWake(k: Kernel)
    requires SchedInv(k) && WakeInv(k)
    ensures Step(k, Tick).Next? ==> WakeInv(Step(k, Tick).k)
  {
    hide WaitOk, ReadyOk, WakeInv;
    if Step(k, Tick).Next? {
      var k' := Step(k, Tick).k;
      if k.threads[k.running].ticksLeft == 0 { ScheduleKeeps(k); SameSyncWake(k, k'); } else { LocalWake(k, k'); }
    }
  }

  // A new thread is at no semaphore.
  lemma NewcomerWake(k: Kernel, k': Kernel, t: Tid)
    requires SchedInv(k) && WakeInv(k) && k'.sems == k.sems && t !in k.threads
    requires k'.threads.Keys == k.threads.Keys + {t} && !k'.threads[t].pc.Retest?
    requires forall u | u in k.threads :: k'.threads[u] == k.threads[u]
    ensures WakeInv(k')
  {
    hide WaitOk, ReadyOk, WakeOk;
    forall s | s in k'.sems ensures WakeOk(k', s) { Untouched(k, k', s); }
  }

  lemma DownWake(k: Kernel, s: Sid)
    requires SchedInv(k) && WakeInv(k) && s in k.sems
    requires k.threads[k.running].pc == Down(s) || k.threads[k.running].pc == Retest(s)
    ensures DownStep(k, s).Next? ==> WakeInv(DownStep(k, s).k)
  {
    if k.sems[s].value == 0 {
      OneListEach(k, k.running);
      SleepWake(k, s);
      SleepKeeps(k, s);
      ScheduleKeeps(Sleep(k, s));
      if Schedule(Sleep(k, s)).Next? { SameSyncWake(Sleep(k, s), Schedule(Sleep(k, s)).k); }
    } else {
      TakeWake(k, s);
    }
  }

  lemma ExecuteWake(k: Kernel)
    requires SchedInv(k) && WakeInv(k)
    ensures Execute(k).Next? ==> WakeInv(Execute(k).k)
  {
    var pc := k.threads[k.running].pc;
    assert PcOk(k, pc);
    if pc.Down? || pc.Retest? {
      DownWake(k, pc.s);
    } else if pc.Up? {
      UpWake(k, pc.s);
    } else if !pc.Client? {
      LockCodeLocal(k);
      if LockCode(k).Next? { LocalWake(k, LockCode(k).k); }
    }
  }
}

/** Locks: mutual exclusion in every interleaving. */
module LockProofs {
  import opened Basics
  import opened Threads
  import opened SchedulerProofs

  // In the critical region of l: from the successful down to the up, gaps included.
  predicate Inside(th: Thread, l: Sid)
  {
    || Nest(th, l) > 0 || th.pc == SetHolder(l) || th.pc == CheckZero(l) || th.pc == SetCount(l)
    || th.pc == ClearHolder(l) || th.pc == Up(l)
  }

  // Inside, and lock.holder names the thread.
  predicate Holds(th: Thread, l: Sid)
  {
    Inside(th, l) && th.pc != SetHolder(l) && th.pc != Up(l)
  }

  // What a thread's pc says about its own nesting.
  predicate NestOk(th: Thread, l: Sid)
  {
    var n := Nest(th, l);
    n < COUNT_LIMIT &&
    match th.pc
    case Client => true
    case LockTest(m) => m == l ==> n + 1 < COUNT_LIMIT
    case Again(m) => m == l ==> 0 < n && n + 1 < COUNT_LIMIT
    case CheckHolder(m) => m == l ==> 0 < n
    case UnlockTest(m) => m == l ==> 0 < n
    case Drop(m) => m == l ==> 1 < n
    case CheckOne(m) => m == l ==> n == 1
    case ClearCount(m) => m == l ==> n == 1
    case Down(m) => m == l ==> n == 0
    case Retest(m) => m == l ==> n == 0
    case Up(m) => m == l ==> n == 0
    case _ => th.pc.l == l ==> n == 0
  }

  ghost predicate LockOk(k: Kernel, l: Sid)
    requires l in k.locks && l in k.sems
  {
    var v := k.locks[l];
    && (forall t | t in k.threads :: NestOk(k.threads[t], l))
    // mutual exclusion
    && (forall t, u | t in k.threads && u in k.threads && Inside(k.threads[t], l) && Inside(k.threads[u], l) :: t == u)
    // the semaphore is free exactly when nobody is inside
    && k.sems[l].value <= 1
    && (k.sems[l].value == 0 <==> exists t :: t in k.threads && Inside(k.threads[t], l))
    // the unsynchronised holder variable
    && (forall t | t in k.threads :: v.holder == Some(t) <==> Holds(k.threads[t], l))
    && (v.holder.Some? ==> v.holder.value in k.threads)
    // the recursion count
    && (forall t | t in k.threads && Inside(k.threads[t], l) :: v.count == Nest(k.threads[t], l))
    && (k.sems[l].value == 1 ==> v.count == 0)
  }

  ghost predicate LockInv(k: Kernel)
  {
    k.locks.Keys <= k.sems.Keys && forall l | l in k.locks :: LockOk(k, l)
  }

  // Steps that touch neither the lock's variables nor anyone's position with respect to it.
  lemma OtherLock(k: Kernel, k': Kernel, l: Sid)
    requires l in k.locks && l in k.sems && LockOk(k, l)
    requires l in k'.locks && l in k'.sems && k'.locks[l] == k.locks[l] && k'.sems[l].value == k.sems[l].value
    requires k'.threads.Keys == k.threads.Keys
    requires forall t | t in k.threads ::
               && Nest(k'.threads[t], l) == Nest(k.threads[t], l) && NestOk(k'.threads[t], l)
               && Inside(k'.threads[t], l) == Inside(k.threads[t], l) && Holds(k'.threads[t], l) == Holds(k.threads[t], l)
    ensures LockOk(k', l)
  {
    if k.sems[l].value == 0 {
      var t :| t in k.threads && Inside(k.threads[t], l);
      assert t in k'.threads && Inside(k'.threads[t], l);
    }
  }

  lemma SameSyncLock(k: Kernel, k': Kernel)
    requires LockInv(k) && SameSync(k, k')
    ensures LockInv(k')
  {
    hide LockOk;
    forall l | l in k'.locks ensures LockOk(k', l) { SameSyncOne(k, k', l); }
  }

  lemma SameSyncOne(k: Kernel, k': Kernel, l: Sid)
    requires l in k.locks && l in k.sems && LockOk(k, l) && SameSync(k, k')
    ensures LockOk(k', l)
  {
    OtherLock(k, k', l);
  }

  // Everything but the running thread stands where it stood.
  ghost predicate OthersStay(k: Kernel, k': Kernel)
  {
    && k.running in k.threads && k'.threads.Keys == k.threads.Keys
    && k'.locks.Keys == k.locks.Keys && k'.sems.Keys == k.sems.Keys
    && forall t | t in k.threads && t != k.running ::
         k'.threads[t].pc == k.threads[t].pc && k'.threads[t].nest == k.threads[t].nest
  }

  // A step of the thread inside.
  lemma Stay(k: Kernel, k': Kernel, l: Sid)
    requires l in k.locks && l in k.sems && LockOk(k, l) && OthersStay(k, k')
    requires var th, th' := k.threads[k.running], k'.threads[k.running];
             && Inside(th, l) && Inside(th', l) && NestOk(th', l)
             && k'.sems[l].value == 0 && k'.locks[l].count == Nest(th', l)
             && k'.locks[l].holder == if Holds(th', l) then Some(k.running) else None
    ensures LockOk(k', l)
  {
    var self := k.running;
    forall t | t in k'.threads ensures NestOk(k'.threads[t], l) { assert NestOk(k.threads[t], l); }
    forall t | t in k'.threads && Inside(k'.threads[t], l) ensures t == self {
      if t != self { assert Inside(k.threads[t], l); }
    }
    assert self in k'.threads && Inside(k'.threads[self], l);
  }

  // The successful down.
  lemma Enter(k: Kernel, k': Kernel, l: Sid)
    requires l in k.locks && l in k.sems && LockOk(k, l) && OthersStay(k, k')
    requires k.sems[l].value == 1 && k'.sems[l].value == 0 && k'.locks[l] == k.locks[l]
    requires k'.threads[k.running].pc == SetHolder(l) && Nest(k'.threads[k.running], l) == 0
    ensures LockOk(k', l)
  {
    var self := k.running;
    forall t | t in k'.threads ensures NestOk(k'.threads[t], l) { assert NestOk(k.threads[t], l); }
    forall t | t in k.threads ensures !Inside(k.threads[t], l) { }
    assert forall t | t in k'.threads && t != self :: !Inside(k'.threads[t], l);
    assert self in k'.threads && Inside(k'.threads[self], l);
  }

  // The up that ends the critical region.
  lemma Leave(k: Kernel, k': Kernel, l: Sid)
    requires l in k.locks && l in k.sems && LockOk(k, l) && OthersStay(k, k')
    requires k.threads[k.running].pc == Up(l) && k'.threads[k.running].pc == Client
    requires k'.threads[k.running].nest == k.threads[k.running].nest
    requires k'.sems[l].value == 1 && k'.locks[l] == k.locks[l]
    ensures LockOk(k', l)
  {
    var self := k.running;
    assert Inside(k.threads[self], l) && NestOk(k.threads[self], l);
    forall t | t in k'.threads ensures NestOk(k'.threads[t], l) && !Inside(k'.threads[t], l) {
      assert NestOk(k.threads[t], l);
      if t != self { assert !Inside(k.threads[t], l); }
    }
    assert forall t | t in k.threads :: !Holds(k.threads[t], l);
  }

  // Locks other than the one the running thread works on.
  lemma ElsewhereKeeps(k: Kernel, k': Kernel, l: Sid)
    requires l in k.locks && l in k.sems && LockOk(k, l) && OthersStay(k, k')
    requires k'.locks[l] == k.locks[l] && k'.sems[l].value == k.sems[l].value
    requires var th, th' := k.threads[k.running], k'.threads[k.running];
             && Nest(th', l) == Nest(th, l) && Subject(th.pc) != Some(l) && Subject(th'.pc) != Some(l)
    ensures LockOk(k', l)
  {
    forall t | t in k.threads
      ensures && Nest(k'.threads[t], l) == Nest(k.threads[t], l) && NestOk(k'.threads[t], l)
              && Inside(k'.threads[t], l) == Inside(k.threads[t], l) && Holds(k'.threads[t], l) == Holds(k.threads[t], l)
    {
      AllNestOk(k, l, t);
      hide LockOk;
      SamePlace(k.threads[t], k'.threads[t], l);
    }
    hide LockOk, NestOk, Inside, Holds, Nest;
    OtherLock(k, k', l);
  }

  lemma AllNestOk(k: Kernel, l: Sid, t: Tid)
    requires l in k.locks && l in k.sems && LockOk(k, l) && t in k.threads
    ensures NestOk(k.threads[t], l)
  {
  }

  // Where a thread stands with respect to l, when it is busy with something else.
  lemma SamePlace(th: Thread, th': Thread, l: Sid)
    requires NestOk(th, l) && Nest(th', l) == Nest(th, l)
    requires th'.pc == th.pc || (Subject(th.pc) != Some(l) && Subject(th'.pc) != Some(l))
    ensures NestOk(th', l) && Inside(th', l) == Inside(th, l) && Holds(th', l) == Holds(th, l)
  {
  }

  // The same code, for the thread that runs it: its ASSERTs hold, and unless the test at line 56
  // sends it to the semaphore it is inside before and after.
  lemma LockCodeSelf(k: Kernel, l: Sid)
    requires k.running in k.threads && LockPc(k.threads[k.running].pc) && k.threads[k.running].pc.l == l && l in k.locks
    requires var th := k.threads[k.running];
             && NestOk(th, l)
             && (k.locks[l].holder == Some(k.running) <==> Holds(th, l))
             && (Inside(th, l) ==> k.locks[l].count == Nest(th, l))
             && (k.locks[l].holder.Some? && Inside(th, l) ==> Holds(th, l))
    ensures LockCode(k).Next?
    ensures var th, th', v' := k.threads[k.running], LockCode(k).k.threads[k.running], LockCode(k).k.locks[l];
            && NestOk(th', l) && Inside(th', l) == Inside(th, l)
            && (if Inside(th, l) then v'.count == Nest(th', l) && v'.holder == (if Holds(th', l) then Some(k.running) else None)
                else v' == k.locks[l])
  {
    match k.threads[k.running].pc {
      case LockTest(_) =>
      case SetHolder(_) =>
      case CheckZero(_) =>
      case SetCount(_) =>
      case Again(_) =>
      case CheckHolder(_) =>
      case UnlockTest(_) =>
      case Drop(_) =>
      case CheckOne(_) =>
      case ClearCount(_) =>
      case ClearHolder(_) =>
    }
  }

  lemma LockStep(k: Kernel, l: Sid)
    requires k.running in k.threads && l in k.locks && l in k.sems && LockOk(k, l)
    requires LockPc(k.threads[k.running].pc) && k.threads[k.running].pc.l == l
    ensures LockCode(k).Next? && LockOk(LockCode(k).k, l)
  {
    var th := k.threads[k.running];
    assert NestOk(th, l);
    LockCodeSelf(k, l);
    LockCodeFrame(k);
    var k' := LockCode(k).k;
    assert OthersStay(k, k');
    if Inside(th, l) { Stay(k, k', l); } else { Beside(k, k', l); }
  }

  // A step of a thread outside l that stays outside and changes nothing of l.
  lemma Beside(k: Kernel, k': Kernel, l: Sid)
    requires l in k.locks && l in k.sems && LockOk(k, l) && OthersStay(k, k')
    requires k'.locks[l] == k.locks[l] && k'.sems[l].value == k.sems[l].value
    requires var th, th' := k.threads[k.running], k'.threads[k.running];
             && !Inside(th, l) && !Inside(th', l) && NestOk(th', l)
    ensures LockOk(k', l)
  {
    forall t | t in k.threads
      ensures && Nest(k'.threads[t], l) == Nest(k.threads[t], l) && NestOk(k'.threads[t], l)
              && Inside(k'.threads[t], l) == Inside(k.threads[t], l) && Holds(k'.threads[t], l) == Holds(k.threads[t], l)
    {
      assert NestOk(k.threads[t], l);
    }
    OtherLock(k, k', l);
  }

  lemma SleepLock(k: Kernel, s: Sid, l: Sid)
    requires k.running in k.threads && l in k.locks && l in k.sems && s in k.sems && LockOk(k, l)
    requires k.threads[k.running].pc == Down(s) || k.threads[k.running].pc == Retest(s)
    ensures LockOk(Sleep(k, s), l)
  {
    assert NestOk(k.threads[k.running], l);
    if l != s { ElsewhereKeeps(k, Sleep(k, s), l); } else { Beside(k, Sleep(k, s), l); }
  }

  // sync.c:37
  function Taken(k: Kernel, s: Sid): Kernel
    requires k.running in k.threads && s in k.sems && k.sems[s].value > 0
  {
    Goto(k.(sems := k.sems[s := k.sems[s].(value := k.sems[s].value - 1)]), if s in k.locks then SetHolder(s) else Client)
  }

  lemma TakeLock(k: Kernel, s: Sid, l: Sid)
    requires k.running in k.threads && l in k.locks && l in k.sems && s in k.sems && LockOk(k, l)
    requires k.threads[k.running].pc == Down(s) || k.threads[k.running].pc == Retest(s)
    requires k.sems[s].value > 0
    ensures LockOk(Taken(k, s), l)
  {
    assert NestOk(k.threads[k.running], l);
    if l != s { ElsewhereKeeps(k, Taken(k, s), l); } else { Enter(k, Taken(k, s), l); }
  }

  lemma UpLock(k: Kernel, k': Kernel, s: Sid, l: Sid)
    requires OthersStay(k, k') && l in k.locks && l in k.sems && s in k.sems && LockOk(k, l)
    requires k.threads[k.running].pc == Up(s)
    requires k'.threads[k.running].pc == Client && k'.threads[k.running].nest == k.threads[k.running].nest
    requires k'.locks == k.locks && k'.sems[s].value == (k.sems[s].value + 1) % VALUE_LIMIT
    requires l != s ==> k'.sems[l] == k.sems[l]
    ensures LockOk(k', l)
  {
    if l != s {
      ElsewhereKeeps(k, k', l);
    } else {
      assert Inside(k.threads[k.running], l);
      Leave(k, k', l);
    }
  }

  lemma DownAll(k: Kernel, s: Sid)
    requires SchedInv(k) && LockInv(k) && s in k.sems
    requires k.threads[k.running].pc == Down(s) || k.threads[k.running].pc == Retest(s)
    ensures match DownStep(k, s)
            case Next(k') => LockInv(k')
            case Halt(line) => line == 65
            case Disabled => false
  {
    if k.sems[s].value == 0 {
      OneListEach(k, k.running);
      SleepKeeps(k, s);
      var m := Sleep(k, s);
      forall l | l in m.locks ensures LockOk(m, l) { SleepLock(k, s, l); }
      ScheduleKeeps(m);
      if Schedule(m).Next? { SameSyncLock(m, Schedule(m).k); }
    } else {
      forall l | l in k.locks ensures LockOk(Taken(k, s), l) { TakeLock(k, s, l); }
    }
  }

  // What SemaphoreUp changes, seen from the locks.
  lemma UpShape(k: Kernel, s: Sid)
    requires SchedInv(k) && s in k.sems
    ensures UpStep(k, s).Next?
    ensures var k' := UpStep(k, s).k;
            && OthersStay(k, k') && k'.locks == k.locks
            && k'.threads[k.running].pc == Client && k'.threads[k.running].nest == k.threads[k.running].nest
            && k'.sems[s].value == (k.sems[s].value + 1) % VALUE_LIMIT
            && forall l | l in k.sems && l != s :: k'.sems[l] == k.sems[l]
  {
    hide WaitOk, ReadyOk;
    if k.sems[s].waiting != [] { WakeFacts(k, s); }
  }

  lemma UpAll(k: Kernel, s: Sid)
    requires SchedInv(k) && LockInv(k) && s in k.sems && k.threads[k.running].pc == Up(s)
    ensures UpStep(k, s).Next? && LockInv(UpStep(k, s).k)
  {
    UpShape(k, s);
    var k' := UpStep(k, s).k;
    forall l | l in k'.locks ensures LockOk(k', l) { UpLock(k, k', s, l); }
  }

  lemma LockAll(k: Kernel)
    requires k.running in k.threads && LockInv(k)
    requires LockPc(k.threads[k.running].pc) && k.threads[k.running].pc.l in k.locks
    ensures LockCode(k).Next? && LockInv(LockCode(k).k)
  {
    hide LockCode, LockOk, OthersStay;
    var m := k.threads[k.running].pc.l;
    assert LockOk(k, m);
    LockStep(k, m);
    LockElsewhere(k);
    var k' := LockCode(k).k;
    forall l | l in k'.locks ensures LockOk(k', l) {
      if l != m { ElsewhereKeeps(k, k', l); }
    }
  }

  // The lock code of one lock touches no other.
  lemma LockElsewhere(k: Kernel)
    requires k.running in k.threads && LockPc(k.threads[k.running].pc) && k.threads[k.running].pc.l in k.locks && LockCode(k).Next?
    ensures var k' := LockCode(k).k;
            && OthersStay(k, k') && k'.sems == k.sems && k'.locks.Keys == k.locks.Keys && k.running in k'.threads
            && forall l | l in k.locks && l != k.threads[k.running].pc.l ::
                 && k'.locks[l] == k.locks[l] && Nest(k'.threads[k.running], l) == Nest(k.threads[k.running], l)
                 && Subject(k.threads[k.running].pc) != Some(l) && Subject(k'.threads[k.running].pc) != Some(l)
  {
    LockCodeFrame(k);
    hide LockCode;
  }

  lemma ExecuteLock(k: Kernel)
    requires SchedInv(k) && LockInv(k)
    ensures match Execute(k)
            case Next(k') => LockInv(k')
            case Halt(line) => line == 65
            case Disabled => true
  {
    var pc := k.threads[k.running].pc;
    assert PcOk(k, pc);
    if pc.Down? || pc.Retest? {
      DownAll(k, pc.s);
    } else if pc.Up? {
      UpAll(k, pc.s);
    } else if !pc.Client? {
      LockAll(k);
    }
  }

  // A balanced call only moves the caller to an entry point.
  lemma CallLock(k: Kernel, pc: Pc, l: Sid)
    requires k.running in k.threads && l in k.locks && l in k.sems && LockOk(k, l)
    requires k.threads[k.running].pc == Client && EntryPoint(k, pc) && BalancedCall(k, Call(pc))
    ensures LockOk(Goto(k, pc), l)
  {
    var k' := Goto(k, pc);
    var th := k.threads[k.running];
    assert NestOk(th, l);
    if Inside(th, l) { Stay(k, k', l); } else { Beside(k, k', l); }
  }

  lemma SpawnLock(k: Kernel, k': Kernel, t: Tid, p: nat)
    requires LockInv(k) && t !in k.threads
    requires k'.threads == k.threads[t := Thread(Ready, Client, p, p, map[])]
    requires k'.sems == k.sems && k'.locks == k.locks
    ensures LockInv(k')
  {
    forall l | l in k'.locks ensures LockOk(k', l) {
      SpawnOneLock(k, k', t, p, l);
    }
  }

  lemma SpawnOneLock(k: Kernel, k': Kernel, t: Tid, p: nat, l: Sid)
    requires l in k.locks && l in k.sems && LockOk(k, l) && t !in k.threads
    requires k'.threads == k.threads[t := Thread(Ready, Client, p, p, map[])]
    requires k'.sems == k.sems && k'.locks == k.locks
    ensures LockOk(k', l)
  {
    assert !Inside(k'.threads[t], l) && NestOk(k'.threads[t], l);
    if k.sems[l].value == 0 {
      var u :| u in k.threads && Inside(k.threads[u], l);
      assert u in k'.threads && Inside(k'.threads[u], l);
    }
  }

  // In every interleaving of balanced callers the lock invariant is kept, and the ASSERTs of
  // sync.c:60, 71 and 77 do not fail.
  lemma StepKeepsLock(k: Kernel, a: Action)
    requires SchedInv(k) && LockInv(k) && BalancedCall(k, a)
    ensures match Step(k, a)
            case Next(k') => LockInv(k')
            case Halt(line) => line == 65
            case Disabled => true
  {
    match a {
      case Tick =>
        TickKeeps(k);
        if k.threads[k.running].ticksLeft == 0 { ScheduleKeeps(k); }
        if Timer(k).Next? { SameSyncLock(k, Timer(k).k); }
      case Advance => ExecuteLock(k);
      case Call(pc) => if Step(k, a).Next? { forall l | l in k.locks ensures LockOk(Goto(k, pc), l) { CallLock(k, pc, l); } }
      case Spawn(t, p) => if Step(k, a).Next? { SpawnLock(k, Step(k, a).k, t, p); }
    }
  }

  // What the invariant says of the lock: one thread at most inside, and the unsynchronised test
  // of sync.c:56 sees the thread's own nesting.
  lemma MutualExclusion(k: Kernel, l: Sid, t: Tid, u: Tid)
    requires LockInv(k) && l in k.locks && t in k.threads && u in k.threads
    ensures Inside(k.threads[t], l) && Inside(k.threads[u], l) ==> t == u
    ensures k.threads[t].pc == LockTest(l) ==> (k.locks[l].holder == Some(t) <==> Nest(k.threads[t], l) > 0)
    ensures Nest(k.threads[t], l) > 0 ==> k.locks[l] == Lock(Some(t), Nest(k.threads[t], l))
  {
    assert LockOk(k, l);
    assert NestOk(k.threads[t], l);
  }
}

/** Whole runs. */
module ThreadRuns {
  import opened Basics
  import opened Threads
  import opened SchedulerProofs
  import opened SemaphoreProofs
  import opened LockProofs

  ghost predicate Inv(k: Kernel)
  {
    SchedInv(k) && WakeInv(k) && LockInv(k)
  }

  // The running thread is about to test a semaphore that is 0.
  predicate WouldBlock(k: Kernel)
    requires k.running in k.threads
  {
    var pc := k.threads[k.running].pc;
    (pc.Down? || pc.Retest?) && pc.s in k.sems && k.sems[pc.s].value == 0
  }

  // `idle` is a thread that never blocks: it may take free locks and semaphores and release them.
  predicate Allowed(k: Kernel, a: Action, idle: Tid)
    requires k.running in k.threads
  {
    BalancedCall(k, a) && (a.Advance? && k.running == idle ==> !WouldBlock(k))
  }

  predicate Awake(k: Kernel, idle: Tid)
  {
    idle in k.threads && !k.threads[idle].status.Blocked?
  }

  // With such a thread around, no ASSERT fails: not sync.c:29, 60, 71, 77, not thread.c:54, 65, 160, 165.
  lemma StepSafe(k: Kernel, a: Action, idle: Tid)
    requires Inv(k) && Awake(k, idle) && Allowed(k, a, idle)
    ensures match Step(k, a)
            case Next(k') => Inv(k') && Awake(k', idle)
            case Halt(_) => false
            case Disabled => true
  {
    hide WakeInv, LockInv;
    StepKeepsSched(k, a);
    StepKeepsWake(k, a);
    StepKeepsLock(k, a);
    SomeoneReady(k, a, idle);
    if Step(k, a).Next? { StaysAwake(k, a, idle); }
  }

  // A step that halted at line 65 would have blocked the running thread, so not the idle one, which
  // would be ready.
  lemma SomeoneReady(k: Kernel, a: Action, idle: Tid)
    requires SchedInv(k) && Awake(k, idle) && Allowed(k, a, idle)
    ensures Step(k, a) != Halt(65)
  {
    if a.Tick? { TickKeeps(k); }
    if k.running != idle { assert idle in k.ready; }
  }

  lemma StaysAwake(k: Kernel, a: Action, idle: Tid)
    requires SchedInv(k) && Awake(k, idle) && Allowed(k, a, idle) && Step(k, a).Next?
    ensures Awake(Step(k, a).k, idle)
  {
    if a.Tick? {
      TickKeeps(k);
      if k.threads[k.running].ticksLeft == 0 { ScheduleKeeps(k); }
    } else if a.Advance? {
      ExecuteBlocks(k, idle);
    }
  }

  // A step blocks nobody but the running thread, and that only on a semaphore that is 0.
  lemma ExecuteBlocks(k: Kernel, t: Tid)
    requires SchedInv(k) && Execute(k).Next? && t in k.threads && !k.threads[t].status.Blocked?
    requires t == k.running ==> !WouldBlock(k)
    ensures t in Execute(k).k.threads && !Execute(k).k.threads[t].status.Blocked?
  {
    var pc := k.threads[k.running].pc;
    assert PcOk(k, pc);
    if WouldBlock(k) {
      SleepKeeps(k, pc.s);
      ScheduleKeeps(Sleep(k, pc.s));
    } else if pc.Up? && k.sems[pc.s].waiting != [] {
      WakeFacts(k, pc.s);
    } else if LockPc(pc) {
      LockCodeFrame(k);
    }
  }

  // The state after a sequence of actions in which disabled ones are skipped.
  function Run(k: Kernel, acts: seq<Action>): Outcome
    requires Formed(k)
    decreases acts
  {
    if acts == [] then Next(k)
    else match Step(k, acts[0])
      case Next(k') => if Formed(k') then Run(k', acts[1..]) else Disabled
      case Halt(line) => Halt(line)
      case Disabled => Run(k, acts[1..])
  }

  // Every action of the run is allowed where it is taken.
  predicate AllowedRun(k: Kernel, acts: seq<Action>, idle: Tid)
    requires Formed(k)
    decreases acts
  {
    acts == [] ||
    (Allowed(k, acts[0], idle) &&
     match Step(k, acts[0])
     case Next(k') => Formed(k') && AllowedRun(k', acts[1..], idle)
     case Halt(_) => true
     case Disabled => AllowedRun(k, acts[1..], idle))
  }

  // Safety over whole runs of any length and any interleaving.
  lemma {:induction false} RunSafe(k: Kernel, acts: seq<Action>, idle: Tid)
    requires Inv(k) && Awake(k, idle) && AllowedRun(k, acts, idle)
    ensures Run(k, acts).Next? && Inv(Run(k, acts).k) && Awake(Run(k, acts).k, idle)
    decreases acts
  {
    if acts != [] {
      StepSafe(k, acts[0], idle);
      match Step(k, acts[0]) {
        case Next(k') => RunSafe(k', acts[1..], idle);
        case Disabled => RunSafe(k, acts[1..], idle);
      }
    }
  }

  // thread.c:179-188 and sync.c:10-21: one running thread, semaphores and locks at rest.
  lemma StartInv(main: Tid, priority: nat, values: map<Sid, nat>, locks: set<Sid>)
    requires locks <= values.Keys && forall l | l in locks :: values[l] == 1
    ensures Inv(Kernel(map[main := Thread(Running, Client, priority, priority, map[])], [], main,
                       map s | s in values :: Sem(values[s], []), map l | l in locks :: Lock(None, 0)))
  {
  }
}

/** A thread that another thread's scan stands on can block meanwhile. */
module ScanRun {
  import opened Basics
  import opened Threads
  import opened ThreadRuns

  const MAIN: Tid := 1024
  const A: Tid := 2048
  const B: Tid := 3072
  const L: Sid := 1

  // Three threads of priority 0 and one lock.
  function Snap(m: (Status, Pc), a: (Status, Pc), b: (Status, Pc), ready: seq<Tid>, running: Tid, sem: Sem, lock: Lock): Kernel
  {
    Kernel(map[MAIN := Thread(m.0, m.1, 0, 0, map[]), A := Thread(a.0, a.1, 0, 0, map[]), B := Thread(b.0, b.1, 0, 0, map[])],
           ready, running, map[L := sem], map[L := lock])
  }

  const FREE := Lock(None, 0)
  const BOOT := Kernel(map[MAIN := Thread(Running, Client, 0, 0, map[])], [], MAIN, map[L := Sem(1, [])], map[L := FREE])

  // The states from the main thread's start of a third thread on: it has started A and B and looks
  // along the ready list when the timer fires.
  function Scene(i: nat): Kernel
  {
    if i == 0 then Snap((Running, Client), (Ready, Client), (Ready, Client), [A, B], MAIN, Sem(1, []), FREE)
    else if i == 1 then Snap((Ready, Client), (Running, Client), (Ready, Client), [B, MAIN], A, Sem(1, []), FREE)
    else if i == 2 then Snap((Ready, Client), (Running, LockTest(L)), (Ready, Client), [B, MAIN], A, Sem(1, []), FREE)
    else if i == 3 then Snap((Ready, Client), (Running, Down(L)), (Ready, Client), [B, MAIN], A, Sem(1, []), FREE)
    else if i == 4 then Snap((Ready, Client), (Running, SetHolder(L)), (Ready, Client), [B, MAIN], A, Sem(0, []), FREE)
    else if i == 5 then Snap((Ready, Client), (Ready, SetHolder(L)), (Running, Client), [MAIN, A], B, Sem(0, []), FREE)
    else if i == 6 then Snap((Ready, Client), (Ready, SetHolder(L)), (Running, LockTest(L)), [MAIN, A], B, Sem(0, []), FREE)
    else if i == 7 then Snap((Ready, Client), (Ready, SetHolder(L)), (Running, Down(L)), [MAIN, A], B, Sem(0, []), FREE)
    else Snap((Running, Client), (Ready, SetHolder(L)), (Blocked, Retest(L)), [A], MAIN, Sem(0, [B]), FREE)
  }

  const ACTS := [Tick, Call(LockTest(L)), Advance, Advance, Tick, Call(LockTest(L)), Advance, Advance]

  lemma SceneFormed(i: nat)
    ensures Formed(Scene(i))
  {
  }

  // The timer takes the CPU from one thread and gives it to the next.
  lemma TickStep(i: nat)
    requires (i == 0 || i == 4) && Formed(Scene(i))
    ensures Step(Scene(i), Tick) == Next(Scene(i + 1))
  {
    hide Formed;
    var k, k' := Step(Scene(i), Tick).k, Scene(i + 1);
    assert k.threads == k'.threads;
    assert k.ready == k'.ready;
  }

  // A thread calls sys_lock_lock and finds that it is not the holder.
  lemma EnterStep(i: nat)
    requires (i == 1 || i == 5) && Formed(Scene(i)) && Formed(Scene(i + 1))
    ensures Step(Scene(i), Call(LockTest(L))) == Next(Scene(i + 1)) && Step(Scene(i + 1), Advance) == Next(Scene(i + 2))
  {
    hide Formed;
    assert Step(Scene(i), Call(LockTest(L))).k.threads == Scene(i + 1).threads;
    assert Step(Scene(i + 1), Advance).k.threads == Scene(i + 2).threads;
  }

  // A takes the semaphore; B finds it taken.
  lemma TakenStep()
    requires Formed(Scene(3))
    ensures Step(Scene(3), Advance) == Next(Scene(4))
  {
    hide Formed;
    var k, k' := Step(Scene(3), Advance).k, Scene(4);
    assert k.threads == k'.threads;
    assert k.sems.Keys == k'.sems.Keys && k.sems[L] == k'.sems[L];
    assert k.sems == k'.sems;
  }

  lemma BlockingStep()
    requires Formed(Scene(7))
    ensures Step(Scene(7), Advance) == Next(Scene(8))
  {
    hide Formed;
    var k, k' := Step(Scene(7), Advance).k, Scene(8);
    assert k.threads == k'.threads;
    assert k.ready == k'.ready;
    assert k.sems.Keys == k'.sems.Keys && k.sems[L] == k'.sems[L];
    assert k.sems == k'.sems;
  }

  lemma SceneStep(i: nat)
    requires i < |ACTS|
    ensures Formed(Scene(i)) && Step(Scene(i), ACTS[i]) == Next(Scene(i + 1))
  {
    hide Formed, Scene;
    SceneFormed(i);
    SceneFormed(i + 1);
    if i > 0 { SceneFormed(i - 1); }
    if i == 0 || i == 4 {
      TickStep(i);
    } else if i == 1 || i == 5 {
      EnterStep(i);
    } else if i == 2 || i == 6 {
      EnterStep(i - 1);
    } else if i == 3 {
      TakenStep();
    } else {
      BlockingStep();
    }
  }

  lemma {:induction false} SceneRun(i: nat)
    requires i <= |ACTS|
    ensures Formed(Scene(i)) && Run(Scene(i), ACTS[i..]) == Next(Scene(|ACTS|))
    decreases |ACTS| - i
  {
    hide Formed, Scene, Step;
    SceneFormed(i);
    if i < |ACTS| {
      SceneStep(i);
      SceneRun(i + 1);
      assert ACTS[i..][0] == ACTS[i] && ACTS[i..][1..] == ACTS[i + 1..];
    }
  }

  // Boot, two threads started: the main thread runs, and looks along the ready list for a third.
  lemma SceneReached()
    ensures Inv(BOOT) && Formed(BOOT) && Formed(Started()) && Step(BOOT, Spawn(A, 0)) == Next(Started())
    ensures Step(Started(), Spawn(B, 0)) == Next(Scene(0))
  {
    BootOk();
    assert Formed(BOOT);
    hide Inv;
    assert Step(BOOT, Spawn(A, 0)).k.threads == Started().threads;
    assert Step(Started(), Spawn(B, 0)).k.threads == Scene(0).threads;
  }

  function Started(): Kernel
  {
    BOOT.(threads := map[MAIN := Thread(Running, Client, 0, 0, map[]), A := Thread(Ready, Client, 0, 0, map[])], ready := [A])
  }

  lemma BootOk()
    ensures Inv(BOOT)
  {
    var locks := {L};
    StartInv(MAIN, 0, map[L := 1], locks);
    assert BOOT.sems == (map s | s in map[L := 1] :: Sem(map[L := 1][s], []));
    assert BOOT.locks == (map l | l in locks :: Lock(None, 0));
  }

  // B is ready while the main thread scans, and blocked when the main thread runs again.
  lemma BlockedUnderScan()
    ensures Inv(BOOT) && Formed(BOOT) && Run(BOOT, [Spawn(A, 0), Spawn(B, 0)] + ACTS) == Next(Scene(|ACTS|))
    ensures Scene(0).running == MAIN && B in Scene(0).threads && Scene(0).threads[B].status.Ready?
    ensures Scene(|ACTS|).running == MAIN && B in Scene(|ACTS|).threads && Scene(|ACTS|).threads[B].status.Blocked?
  {
    hide Formed, Step, Inv, Scene, Run;
    SceneReached();
    SceneRun(0);
    SceneEnds();
    RunTwo(BOOT, Spawn(A, 0), Started(), Spawn(B, 0), Scene(0), ACTS);
    assert ACTS[0..] == ACTS;
  }

  lemma SceneEnds()
    ensures Scene(0).running == MAIN && B in Scene(0).threads && Scene(0).threads[B].status.Ready?
    ensures Scene(|ACTS|).running == MAIN && B in Scene(|ACTS|).threads && Scene(|ACTS|).threads[B].status.Blocked?
  {
  }

  lemma RunTwo(k0: Kernel, a0: Action, k1: Kernel, a1: Action, k2: Kernel, rest: seq<Action>)
    requires Formed(k0) && Formed(k1) && Formed(k2) && Step(k0, a0) == Next(k1) && Step(k1, a1) == Next(k2)
    ensures Run(k0, [a0, a1] + rest) == Run(k2, rest)
  {
    hide Formed, Step;
    var acts := [a0, a1] + rest;
    assert acts[1..] == [a1] + rest && acts[1..][1..] == rest;
    assert Run(k1, acts[1..]) == Run(k2, rest);
  }
}

/** How long a ready thread waits for the CPU (source/device/timer.c:36-54). */
module WaitingTime {
  import opened Threads
  import opened SchedulerProofs

  // Ticks a thread consumes before the timer takes the CPU from it.
  function Turn(threads: map<Tid, Thread>, t: Tid): nat
  {
    if t in threads then threads[t].ticksLeft + 1 else 0
  }

  // The turns of those queued before t.
  function TurnsBefore(threads: map<Tid, Thread>, q: seq<Tid>, t: Tid): nat
  {
    if q == [] || q[0] == t then 0 else Turn(threads, q[0]) + TurnsBefore(threads, q[1..], t)
  }

  function Budget(k: Kernel, t: Tid): nat
  {
    if t == k.running then 0 else Turn(k.threads, k.running) + TurnsBefore(k.threads, k.ready, t)
  }

  // UnblockThread alone inserts at the front of the ready list.
  function WakeCost(k: Kernel, a: Action): nat
    requires Formed(k)
  {
    var pc := k.threads[k.running].pc;
    assert PcOk(k, pc);
    if a.Advance? && pc.Up? && k.sems[pc.s].waiting != [] then Turn(k.threads, k.sems[pc.s].waiting[0]) else 0
  }

  lemma {:induction false} TurnsAgree(m: map<Tid, Thread>, n: map<Tid, Thread>, q: seq<Tid>, t: Tid)
    requires forall u | u in q && u != t :: Turn(m, u) == Turn(n, u)
    ensures TurnsBefore(m, q, t) == TurnsBefore(n, q, t)
    decreases q
  {
    if q != [] && q[0] != t {
      assert q[0] in q;
      TurnsAgree(m, n, q[1..], t);
    }
  }

  lemma {:induction false} TurnsAppend(m: map<Tid, Thread>, q: seq<Tid>, x: Tid, t: Tid)
    requires t in q
    ensures TurnsBefore(m, q + [x], t) == TurnsBefore(m, q, t)
    decreases q
  {
    if q[0] != t {
      assert (q + [x])[1..] == q[1..] + [x];
      TurnsAppend(m, q[1..], x, t);
    }
  }

  // ScheduleThread ends the running thread's turn.
  lemma ScheduleBudget(k: Kernel, t: Tid)
    requires Queued(k) && t in k.ready && t != k.running && Schedule(k).Next?
    ensures var k' := Schedule(k).k;
            && (t in k'.ready || t == k'.running)
            && Budget(k', t) + Turn(k.threads, k.running) <= Budget(k, t)
  {
    var k' := Schedule(k).k;
    var n := k.ready[0];
    TailOf(k.ready);
    assert n in k.ready && k'.running == n;
    if k.threads[k.running].status.Running? {
      assert k.running !in k.ready;
      assert (k.ready + [k.running])[1..] == k.ready[1..] + [k.running] == k'.ready;
      if t != n {
        TurnsAppend(k'.threads, k.ready[1..], k.running, t);
        TurnsAgree(k.threads, k'.threads, k.ready[1..], t);
      }
    } else if t != n {
      TurnsAgree(k.threads, k'.threads, k.ready[1..], t);
    }
  }

  // Steps that neither dispatch nor queue anyone.
  lemma LocalBudget(k: Kernel, k': Kernel, t: Tid)
    requires SchedInv(k) && t in k.ready && Local(k, k')
    ensures t in k'.ready
    ensures Budget(k', t) + Turn(k.threads, k.running) == Budget(k, t) + Turn(k'.threads, k.running)
  {
    TurnsAgree(k.threads, k'.threads, k.ready, t);
  }

  lemma TickBudget(k: Kernel, t: Tid)
    requires SchedInv(k) && t in k.ready && Timer(k).Next?
    ensures var k' := Timer(k).k;
            && (t in k'.ready || t == k'.running)
            && Budget(k', t) + 1 <= Budget(k, t)
  {
    if k.threads[k.running].ticksLeft == 0 { ScheduleBudget(k, t); } else { LocalBudget(k, Timer(k).k, t); }
  }

  lemma DownBudget(k: Kernel, s: Sid, t: Tid)
    requires SchedInv(k) && t in k.ready && s in k.sems && DownStep(k, s).Next?
    ensures var k' := DownStep(k, s).k;
            && (t in k'.ready || t == k'.running)
            && Budget(k', t) <= Budget(k, t)
  {
    if k.sems[s].value == 0 {
      var m := Sleep(k, s);
      SleepKeeps(k, s);
      TurnsAgree(k.threads, m.threads, k.ready, t);
      ScheduleBudget(m, t);
    } else {
      LocalBudget(k, DownStep(k, s).k, t);
    }
  }

  lemma WokenBudget(k: Kernel, s: Sid, t: Tid)
    requires SchedInv(k) && t in k.ready && s in k.sems && k.sems[s].waiting != []
    ensures var w := k.sems[s].waiting[0];
            && w in k.threads && t in Woken(k, s).ready
            && Budget(Woken(k, s), t) == Budget(k, t) + Turn(k.threads, w)
  {
    UnblockKeeps(k, s);
    var w, k' := k.sems[s].waiting[0], Woken(k, s);
    assert k'.ready[1..] == k.ready;
    TurnsAgree(k.threads, k'.threads, k.ready, t);
  }

  lemma UpBudget(k: Kernel, s: Sid, t: Tid)
    requires SchedInv(k) && t in k.ready && s in k.sems && k.threads[k.running].pc == Up(s) && UpStep(k, s).Next?
    ensures var k' := UpStep(k, s).k;
            && t in k'.ready
            && Budget(k', t) <= Budget(k, t) + WakeCost(k, Advance)
  {
    UpLocal(k, s);
    UpTurn(k, s);
    hide SchedInv, UpStep, Budget, Local, Turn;
    if k.sems[s].waiting == [] {
      LocalBudget(k, UpStep(k, s).k, t);
    } else {
      UnblockKeeps(k, s);
      WokenBudget(k, s, t);
      LocalBudget(Woken(k, s), UpStep(k, s).k, t);
    }
  }

  // SemaphoreUp costs its caller no ticks.
  lemma UpTurn(k: Kernel, s: Sid)
    requires SchedInv(k) && s in k.sems
    ensures UpStep(k, s).Next? && k.running in UpStep(k, s).k.threads
    ensures Turn(UpStep(k, s).k.threads, k.running) == Turn(k.threads, k.running)
    ensures k.sems[s].waiting != [] ==>
              && k.sems[s].waiting[0] in k.threads && Woken(k, s).running == k.running
              && Turn(Woken(k, s).threads, k.running) == Turn(k.threads, k.running)
  {
    if k.sems[s].waiting != [] { WakeFacts(k, s); }
    hide WaitOk, ReadyOk;
  }

  lemma StepBudget(k: Kernel, a: Action, t: Tid)
    requires SchedInv(k) && t in k.ready && Step(k, a).Next?
    ensures var k' := Step(k, a).k;
            && (t in k'.ready || t == k'.running)
            && Budget(k', t) + (if a.Tick? then 1 else 0) <= Budget(k, t) + WakeCost(k, a)
  {
    match a {
      case Tick => TickBudget(k, t);
      case Call(pc) => LocalBudget(k, Step(k, a).k, t);
      case Spawn(u, p) =>
        TurnsAppend(Step(k, a).k.threads, k.ready, u, t);
        TurnsAgree(k.threads, Step(k, a).k.threads, k.ready, t);
      case Advance =>
        var pc := k.threads[k.running].pc;
        assert PcOk(k, pc);
        if pc.Down? || pc.Retest? {
          DownBudget(k, pc.s, t);
        } else if pc.Up? {
          UpBudget(k, pc.s, t);
        } else {
          LockCodeLocal(k);
          LocalBudget(k, LockCode(k).k, t);
          LockCodeTurn(k);
        }
    }
  }

  lemma LockCodeTurn(k: Kernel)
    requires k.running in k.threads && LockPc(k.threads[k.running].pc) && k.threads[k.running].pc.l in k.locks
    requires LockCode(k).Next?
    ensures Turn(LockCode(k).k.threads, k.running) == Turn(k.threads, k.running)
  {
    LockCodeFrame(k);
    match k.threads[k.running].pc {
      case LockTest(_) =>
      case SetHolder(_) =>
      case CheckZero(_) =>
      case SetCount(_) =>
      case Again(_) =>
      case CheckHolder(_) =>
      case UnlockTest(_) =>
      case Drop(_) =>
      case CheckOne(_) =>
      case ClearCount(_) =>
      case ClearHolder(_) =>
    }
  }

  // Along a run: ticks the timer delivers, turns added by wakeups, and t waiting throughout.
  function Ticks(k: Kernel, acts: seq<Action>): nat
    requires Formed(k)
    decreases acts
  {
    if acts == [] then 0
    else match Step(k, acts[0])
      case Next(k') => (if acts[0].Tick? then 1 else 0) + if Formed(k') then Ticks(k', acts[1..]) else 0
      case Halt(_) => 0
      case Disabled => Ticks(k, acts[1..])
  }

  function WakeCosts(k: Kernel, acts: seq<Action>): nat
    requires Formed(k)
    decreases acts
  {
    if acts == [] then 0
    else match Step(k, acts[0])
      case Next(k') => WakeCost(k, acts[0]) + if Formed(k') then WakeCosts(k', acts[1..]) else 0
      case Halt(_) => 0
      case Disabled => WakeCosts(k, acts[1..])
  }

  predicate StaysReady(k: Kernel, acts: seq<Action>, t: Tid)
    requires Formed(k)
    decreases acts
  {
    t in k.ready &&
    (acts == [] ||
     match Step(k, acts[0])
     case Next(k') => Formed(k') && StaysReady(k', acts[1..], t)
     case Halt(_) => true
     case Disabled => StaysReady(k, acts[1..], t))
  }

  // A thread that is never dispatched in a run has seen fewer ticks than the turns of the running
  // thread and of those ahead of it, plus one turn per wakeup.
  lemma {:induction false} BoundedWaiting(k: Kernel, acts: seq<Action>, t: Tid)
    requires SchedInv(k) && StaysReady(k, acts, t)
    ensures Ticks(k, acts) < Budget(k, t) + WakeCosts(k, acts)
    decreases acts
  {
    if acts != [] {
      StepKeepsSched(k, acts[0]);
      match Step(k, acts[0]) {
        case Next(k') =>
          StepBudget(k, acts[0], t);
          BoundedWaiting(k', acts[1..], t);
        case Halt(_) =>
        case Disabled => BoundedWaiting(k, acts[1..], t);
      }
    }
  }
}
