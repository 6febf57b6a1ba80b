// How long turns are, and who comes after whom, over whole runs of the scheduler and the semaphores
// (source/device/timer.c:36-54, source/thread/thread.c:47-75 and 157-176, source/thread/sync.c:23-52).

/** Turns: the timer takes the CPU from a thread after exactly its ticks, and gives it whole turns. */
module Turns {
  import opened Basics
  import opened Threads
  import opened SchedulerProofs
  import opened ThreadRuns
  import opened WaitingTime

  // What one step does to a thread's clock: only the running thread's moves, by one, at a tick; a
  // thread that has used up its turn gets a whole new one.
  lemma StepClock(k: Kernel, a: Action, t: Tid)
    requires SchedInv(k) && t in k.threads && Step(k, a).Next?
    ensures var k' := Step(k, a).k;
            && t in k'.threads && k'.threads[t].priority == k.threads[t].priority
            && k'.threads[t].ticksLeft ==
               if !a.Tick? || t != k.running then k.threads[t].ticksLeft
               else if k.threads[t].ticksLeft == 0 then k.threads[t].priority
               else k.threads[t].ticksLeft - 1
  {
    hide WaitOk;
    match a {
      case Tick =>
      case Call(_) =>
      case Spawn(_, _) =>
      case Advance =>
        var pc := k.threads[k.running].pc;
        assert PcOk(k, pc);
        if pc.Up? { UpClock(k, pc.s, t); } else if LockPc(pc) { LockClock(k, t); }
    }
  }

  lemma UpClock(k: Kernel, s: Sid, t: Tid)
    requires SchedInv(k) && t in k.threads && s in k.sems && UpStep(k, s).Next?
    ensures var k' := UpStep(k, s).k;
            t in k'.threads && k'.threads[t].priority == k.threads[t].priority && k'.threads[t].ticksLeft == k.threads[t].ticksLeft
  {
    if k.sems[s].waiting != [] { WakeFacts(k, s); }
    hide WaitOk, ReadyOk;
  }

  lemma LockClock(k: Kernel, t: Tid)
    requires k.running in k.threads && LockPc(k.threads[k.running].pc) && k.threads[k.running].pc.l in k.locks
    requires LockCode(k).Next? && t in k.threads
    ensures var k' := LockCode(k).k;
            && t in k'.threads && k'.threads[t].priority == k.threads[t].priority && k'.threads[t].ticksLeft == k.threads[t].ticksLeft
            && k'.running == k.running && k'.ready == k.ready && k'.threads[k.running].status == k.threads[k.running].status
  {
    LockCodeFrame(k);
    match k.threads[k.running].pc {
      case LockTest(_) =>
      case SetHolder(_) =>
      case CheckZero(_) =>
      case SetCount(_) =>
      case Again(_) =>
      case CheckHolder(_) =>
      case UnlockTest(_) =>
      case Drop(_) =>
      case CheckOne(_) =>
      case ClearCount(_) =>
      case ClearHolder(_) =>
    }
  }

  // Who runs after one step: the same thread, unless it has blocked or its turn is over at a tick; then
  // the thread at the head of the ready list.
  lemma StepRunner(k: Kernel, a: Action)
    requires SchedInv(k) && Step(k, a).Next?
    ensures var k', t := Step(k, a).k, k.running;
            var q := if a.Tick? then k.ready + [t] else k.ready;
            && t in k'.threads
            && if (a.Tick? && k.threads[t].ticksLeft == 0) || k'.threads[t].status.Blocked?
               then q != [] && k'.running == q[0] && k'.ready == q[1..]
               else k'.running == t
  {
    hide WaitOk;
    match a {
      case Tick => OneListEach(k, k.running);
      case Call(_) =>
      case Spawn(_, _) =>
      case Advance =>
        var pc := k.threads[k.running].pc;
        assert PcOk(k, pc);
        if pc.Up? { UpRunner(k, pc.s); } else if LockPc(pc) { LockClock(k, k.running); } else { DownRunner(k, pc.s); }
    }
  }

  lemma UpRunner(k: Kernel, s: Sid)
    requires SchedInv(k) && s in k.sems && UpStep(k, s).Next?
    ensures var k' := UpStep(k, s).k;
            && k'.running == k.running && k.running in k'.threads && k'.threads[k.running].status.Running?
            && k'.ready == if k.sems[s].waiting == [] then k.ready else [k.sems[s].waiting[0]] + k.ready
  {
    if k.sems[s].waiting != [] { WakeFacts(k, s); }
    hide WaitOk, ReadyOk;
  }

  lemma DownRunner(k: Kernel, s: Sid)
    requires SchedInv(k) && s in k.sems && DownStep(k, s).Next?
    ensures var k' := DownStep(k, s).k;
            && k.running in k'.threads
            && if k.sems[s].value == 0
               then k.ready != [] && k'.running == k.ready[0] && k'.ready == k.ready[1..] && k'.threads[k.running].status.Blocked?
               else k'.running == k.running && k'.ready == k.ready && k'.threads[k.running].status.Running?
  {
    OneListEach(k, k.running);
    hide WaitOk;
    if k.sems[s].value == 0 { assert k.running !in k.ready && (k.ready != [] ==> k.ready[0] in k.ready); }
  }

  // ----- a turn

  // t is not blocked in any state of the run.
  predicate NeverBlocks(k: Kernel, acts: seq<Action>, t: Tid)
    requires Formed(k)
    decreases acts
  {
    && t in k.threads && !k.threads[t].status.Blocked?
    && (acts == [] ||
        match Step(k, acts[0])
        case Next(k') => Formed(k') && NeverBlocks(k', acts[1..], t)
        case Halt(_) => true
        case Disabled => NeverBlocks(k, acts[1..], t))
  }

  // While it does not block, the running thread keeps the CPU for as many ticks as it has left ...
  lemma {:induction false} KeepsTheCpu(k: Kernel, acts: seq<Action>)
    requires SchedInv(k) && NeverBlocks(k, acts, k.running) && Run(k, acts).Next?
    requires Ticks(k, acts) <= k.threads[k.running].ticksLeft
    ensures var k', t := Run(k, acts).k, k.running;
            && SchedInv(k') && k'.running == t && k'.threads[t].ticksLeft == k.threads[t].ticksLeft - Ticks(k, acts)
            && k'.threads[t].priority == k.threads[t].priority
    decreases acts
  {
    hide WaitOk, ReadyOk, Step;
    if acts != [] {
      StepKeepsSched(k, acts[0]);
      match Step(k, acts[0]) {
        case Next(k1) =>
          StepRunner(k, acts[0]);
          StepClock(k, acts[0], k.running);
          KeepsTheCpu(k1, acts[1..]);
        case Disabled => KeepsTheCpu(k, acts[1..]);
      }
    }
  }

  // ... and the next tick that the timer delivers ends its turn: it goes to the end of the ready list
  // with a whole new turn, and the first on that list runs.
  lemma LosesTheCpu(k: Kernel, acts: seq<Action>)
    requires SchedInv(k) && NeverBlocks(k, acts, k.running) && Run(k, acts).Next?
    requires Ticks(k, acts) == k.threads[k.running].ticksLeft
    ensures var k1, t := Run(k, acts).k, k.running;
            && SchedInv(k1) && k1.running == t
            && match Step(k1, Tick)
               case Next(k2) =>
                 && SchedInv(k2) && t in k2.threads && k2.threads[t].ticksLeft == k2.threads[t].priority == k.threads[t].priority
                 && [k2.running] + k2.ready == k1.ready + [t]
               case Halt(_) => false
               case Disabled => k1.threads[t].pc.Retest?
  {
    KeepsTheCpu(k, acts);
    var k1 := Run(k, acts).k;
    hide WaitOk, ReadyOk;
    TickKeeps(k1);
    if Step(k1, Tick).Next? {
      StepKeepsSched(k1, Tick);
      StepRunner(k1, Tick);
      StepClock(k1, Tick, k.running);
    }
  }

  // t does not run in any state of the run.
  predicate StaysAside(k: Kernel, acts: seq<Action>, t: Tid)
    requires Formed(k)
    decreases acts
  {
    && t in k.threads && t != k.running
    && (acts == [] ||
        match Step(k, acts[0])
        case Next(k') => Formed(k') && StaysAside(k', acts[1..], t)
        case Halt(_) => true
        case Disabled => StaysAside(k, acts[1..], t))
  }

  // While a thread waits, ready or blocked, the rest of its turn is kept for it.
  lemma {:induction false} ClockStands(k: Kernel, acts: seq<Action>, t: Tid)
    requires SchedInv(k) && StaysAside(k, acts, t) && Run(k, acts).Next?
    ensures var k' := Run(k, acts).k;
            && SchedInv(k') && t in k'.threads && t != k'.running
            && k'.threads[t].ticksLeft == k.threads[t].ticksLeft && k'.threads[t].priority == k.threads[t].priority
    decreases acts
  {
    hide WaitOk, ReadyOk, Step;
    if acts != [] {
      StepKeepsSched(k, acts[0]);
      match Step(k, acts[0]) {
        case Next(k1) =>
          StepClock(k, acts[0], t);
          ClockStands(k1, acts[1..], t);
        case Disabled => ClockStands(k, acts[1..], t);
      }
    }
  }

  // From one preemption to the next: a thread preempted in k by the timer waits through `wait`, is
  // dispatched by the step `a`, and then keeps the CPU for exactly its priority in ticks, losing it at
  // the one after, if it does not block.
  lemma WholeTurns(k: Kernel, wait: seq<Action>, a: Action, acts: seq<Action>)
    requires SchedInv(k) && Step(k, Tick).Next? && k.threads[k.running].ticksLeft == 0
    requires var k1, t := Step(k, Tick).k, k.running;
             && SchedInv(k1) && StaysAside(k1, wait, t) && Run(k1, wait).Next?
             && var k2 := Run(k1, wait).k;
                && SchedInv(k2) && Step(k2, a).Next?
                && var k3 := Step(k2, a).k;
                   SchedInv(k3) && k3.running == t && NeverBlocks(k3, acts, t) && Run(k3, acts).Next?
    ensures var t := k.running;
            var k3 := Step(Run(Step(k, Tick).k, wait).k, a).k;
            var k4, n := Run(k3, acts).k, Ticks(k3, acts);
            && (n <= k.threads[t].priority ==> k4.running == t)
            && (n == k.threads[t].priority ==>
                  && SchedInv(k4)
                  && match Step(k4, Tick)
                     case Next(k5) => [k5.running] + k5.ready == k4.ready + [t]
                     case Halt(_) => false
                     case Disabled => k4.threads[t].pc.Retest?)
  {
    var k1, t := Step(k, Tick).k, k.running;
    StepClock(k, Tick, t);
    hide WaitOk, ReadyOk, Step;
    ClockStands(k1, wait, t);
    var k2 := Run(k1, wait).k;
    StepClock(k2, a, t);
    var k3 := Step(k2, a).k;
    if Ticks(k3, acts) <= k.threads[t].priority { KeepsTheCpu(k3, acts); }
    if Ticks(k3, acts) == k.threads[t].priority { LosesTheCpu(k3, acts); }
  }

  // A new thread has a whole turn as well, and queues up at the end.
  lemma NewcomerTurn(k: Kernel, t: Tid, priority: nat)
    requires SchedInv(k) && Step(k, Spawn(t, priority)).Next?
    ensures var k' := Step(k, Spawn(t, priority)).k;
            && t in k'.threads && k'.threads[t].ticksLeft == k'.threads[t].priority == priority
            && k'.running == k.running && k'.ready == k.ready + [t]
  {
  }

  // ----- a woken thread runs next

  // No thread is woken along the run.
  ghost predicate NobodyWakes(k: Kernel, acts: seq<Action>)
    requires Formed(k)
    decreases acts
  {
    acts == [] ||
    match Step(k, acts[0])
    case Next(k') =>
      && (forall t | t in k.threads && k.threads[t].status.Blocked? :: t in k'.threads && k'.threads[t].status.Blocked?)
      && Formed(k') && NobodyWakes(k', acts[1..])
    case Halt(_) => true
    case Disabled => NobodyWakes(k, acts[1..])
  }

  // The first thread other than the one that runs in k to get the CPU.
  function NextRunner(k: Kernel, acts: seq<Action>): Option<Tid>
    requires Formed(k)
    decreases acts
  {
    if acts == [] then None
    else match Step(k, acts[0])
      case Next(k') => if k'.running != k.running then Some(k'.running) else if Formed(k') then NextRunner(k', acts[1..]) else None
      case Halt(_) => None
      case Disabled => NextRunner(k, acts[1..])
  }

  lemma {:induction false} FirstIsNext(k: Kernel, acts: seq<Action>)
    requires SchedInv(k) && k.ready != [] && NobodyWakes(k, acts)
    ensures NextRunner(k, acts) in {None, Some(k.ready[0])}
    decreases acts
  {
    hide WaitOk, ReadyOk, Step;
    if acts != [] {
      StepKeepsSched(k, acts[0]);
      match Step(k, acts[0]) {
        case Next(k1) =>
          StepQueue(k, acts[0]);
          if k1.running == k.running { FirstIsNext(k1, acts[1..]); }
        case Halt(_) =>
        case Disabled => FirstIsNext(k, acts[1..]);
      }
    }
  }

  // Unless it wakes someone, a step leaves the head of the ready list there or lets it run.
  lemma StepQueue(k: Kernel, a: Action)
    requires SchedInv(k) && k.ready != [] && Step(k, a).Next?
    requires var k' := Step(k, a).k;
             forall t | t in k.threads && k.threads[t].status.Blocked? :: t in k'.threads && k'.threads[t].status.Blocked?
    ensures var k' := Step(k, a).k;
            if k'.running == k.running then k'.ready != [] && k'.ready[0] == k.ready[0] else k'.running == k.ready[0]
  {
    assert k.ready[0] != k.running by { assert k.ready[0] in k.ready; }
    StepRunner(k, a);
    hide ReadyOk;
    if a.Advance? {
      var pc := k.threads[k.running].pc;
      assert PcOk(k, pc);
      if pc.Up? { UpRunner(k, pc.s); WakesHead(k, pc.s); } else if LockPc(pc) { LockClock(k, k.running); } else { DownRunner(k, pc.s); }
    }
  }

  // An up lets the first waiting thread go, and no other.
  lemma WakesHead(k: Kernel, s: Sid)
    requires SchedInv(k) && s in k.sems && UpStep(k, s).Next?
    ensures k.sems[s].waiting != [] ==>
              var w, k' := k.sems[s].waiting[0], UpStep(k, s).k;
              && w in k.threads && k.threads[w].status.Blocked? && w in k'.threads && k'.threads[w].status.Ready?
  {
    if k.sems[s].waiting != [] { WakeFacts(k, s); }
    hide WaitOk, ReadyOk;
  }

  // The thread an up wakes is the next to run, if nobody else is woken in between.
  lemma WokenRunsNext(k: Kernel, acts: seq<Action>)
    requires SchedInv(k) && k.threads[k.running].pc.Up? && Step(k, Advance).Next?
    requires var s := k.threads[k.running].pc.s; s in k.sems && k.sems[s].waiting != []
    requires SchedInv(Step(k, Advance).k) && NobodyWakes(Step(k, Advance).k, acts)
    ensures var w, k1 := k.sems[k.threads[k.running].pc.s].waiting[0], Step(k, Advance).k;
            && w in k.threads && k.threads[w].status.Blocked? && w in k1.threads && k1.threads[w].status.Ready?
            && k1.running == k.running && NextRunner(k1, acts) in {None, Some(w)}
  {
    var s := k.threads[k.running].pc.s;
    UpRunner(k, s);
    WakesHead(k, s);
    FirstIsNext(Step(k, Advance).k, acts);
  }
}

/** Semaphores serve their waiters in order, and count. */
module WaitingOrder {
  import opened Basics
  import opened Threads
  import opened SchedulerProofs
  import opened ThreadRuns

  // t is asleep in SemaphoreDown on s.
  predicate Asleep(k: Kernel, s: Sid, t: Tid)
  {
    t in k.threads && k.threads[t].status.Blocked? && k.threads[t].pc == Retest(s)
  }

  predicate Joins(k: Kernel, k': Kernel, s: Sid, t: Tid) { !Asleep(k, s, t) && Asleep(k', s, t) }
  predicate Leaves(k: Kernel, k': Kernel, s: Sid, t: Tid) { Asleep(k, s, t) && !Asleep(k', s, t) }

  // The thread that falls asleep, or stops sleeping, in a step; there is at most one.
  ghost function Joined(k: Kernel, k': Kernel, s: Sid): seq<Tid>
  {
    if t: Tid :| Joins(k, k', s, t) then [t] else []
  }
  ghost function Left(k: Kernel, k': Kernel, s: Sid): seq<Tid>
  {
    if t: Tid :| Leaves(k, k', s, t) then [t] else []
  }

  lemma AsleepIff(k: Kernel, s: Sid)
    requires SchedInv(k) && s in k.sems
    ensures forall t: Tid :: Asleep(k, s, t) <==> t in k.sems[s].waiting
  {
  }

  // The list of those asleep on s after a step: as before, or the running thread has joined at the end,
  // or an up has taken the first away.
  lemma StepWaiting(k: Kernel, a: Action, s: Sid)
    requires SchedInv(k) && s in k.sems && Step(k, a).Next?
    ensures var k' := Step(k, a).k;
            && s in k'.sems
            && var w, w' := k.sems[s].waiting, k'.sems[s].waiting;
               if IsUp(k, a, s) then w' == if w == [] then [] else w[1..]
               else w' == w || (w' == w + [k.running] && k.running !in w)
  {
    OneListEach(k, k.running);
    hide ReadyOk;
    match a {
      case Tick =>
      case Call(_) =>
      case Spawn(_, _) =>
      case Advance =>
        var pc := k.threads[k.running].pc;
        assert PcOk(k, pc);
        if LockPc(pc) { LockCodeFrame(k); }
    }
  }

  // The step is the body of SemaphoreUp on s.
  predicate IsUp(k: Kernel, a: Action, s: Sid)
  {
    a.Advance? && k.running in k.threads && k.threads[k.running].pc == Up(s)
  }

  lemma StepOrder(k: Kernel, a: Action, s: Sid)
    requires SchedInv(k) && s in k.sems && Step(k, a).Next? && SchedInv(Step(k, a).k)
    ensures var k' := Step(k, a).k;
            && s in k'.sems && k.sems[s].waiting + Joined(k, k', s) == Left(k, k', s) + k'.sems[s].waiting
            && (forall t, u | Joins(k, k', s, t) && Joins(k, k', s, u) :: t == u)
            && (forall t, u | Leaves(k, k', s, t) && Leaves(k, k', s, u) :: t == u)
  {
    hide WaitOk, ReadyOk, Step, Asleep, Joins, Leaves, Joined, Left;
    var k' := Step(k, a).k;
    StepWaiting(k, a, s);
    AsleepIff(k, s);
    AsleepIff(k', s);
    WaitsOnce(k, s);
    OrderOf(k, k', s, k.sems[s].waiting, k'.sems[s].waiting, k.running);
  }

  lemma OrderOf(k: Kernel, k': Kernel, s: Sid, w: seq<Tid>, w': seq<Tid>, r: Tid)
    requires Distinct(w) && (forall t: Tid :: Asleep(k, s, t) <==> t in w) && (forall t: Tid :: Asleep(k', s, t) <==> t in w')
    requires w' == w || (w' == w + [r] && r !in w) || (w != [] && w' == w[1..])
    ensures w + Joined(k, k', s) == Left(k, k', s) + w'
    ensures forall t, u | Joins(k, k', s, t) && Joins(k, k', s, u) :: t == u
    ensures forall t, u | Leaves(k, k', s, t) && Leaves(k, k', s, u) :: t == u
  {
    hide Asleep;
    if w' == w {
    } else if w' == w + [r] {
      assert Joins(k, k', s, r);
    } else {
      TailOf(w);
      assert Leaves(k, k', s, w[0]);
      assert w == [w[0]] + w[1..];
    }
  }

  lemma WaitsOnce(k: Kernel, s: Sid)
    requires SchedInv(k) && s in k.sems
    ensures Distinct(k.sems[s].waiting)
  {
  }

  // Along a run, in order: who fell asleep on s, and who was let go.
  ghost function AllJoined(k: Kernel, acts: seq<Action>, s: Sid): seq<Tid>
    requires Formed(k)
    decreases acts
  {
    if acts == [] then []
    else match Step(k, acts[0])
      case Next(k') => Joined(k, k', s) + if Formed(k') then AllJoined(k', acts[1..], s) else []
      case Halt(_) => []
      case Disabled => AllJoined(k, acts[1..], s)
  }

  ghost function AllLeft(k: Kernel, acts: seq<Action>, s: Sid): seq<Tid>
    requires Formed(k)
    decreases acts
  {
    if acts == [] then []
    else match Step(k, acts[0])
      case Next(k') => Left(k, k', s) + if Formed(k') then AllLeft(k', acts[1..], s) else []
      case Halt(_) => []
      case Disabled => AllLeft(k, acts[1..], s)
  }

  // Threads leave a semaphore in the order in which they came: those asleep at first and those who
  // joined are, in order, those who left and those asleep at last.
  lemma {:induction false} FirstComeFirstServed(k: Kernel, acts: seq<Action>, s: Sid)
    requires SchedInv(k) && s in k.sems && Run(k, acts).Next?
    ensures var k' := Run(k, acts).k;
            && SchedInv(k') && s in k'.sems
            && k.sems[s].waiting + AllJoined(k, acts, s) == AllLeft(k, acts, s) + k'.sems[s].waiting
    decreases acts
  {
    hide WaitOk, ReadyOk, Step, Joined, Left;
    if acts != [] {
      StepKeepsSched(k, acts[0]);
      match Step(k, acts[0]) {
        case Next(k1) =>
          StepOrder(k, acts[0], s);
          FirstComeFirstServed(k1, acts[1..], s);
          Appended(k.sems[s].waiting, Joined(k, k1, s), Left(k, k1, s), k1.sems[s].waiting,
                   AllJoined(k1, acts[1..], s), AllLeft(k1, acts[1..], s), Run(k, acts).k.sems[s].waiting);
        case Disabled => FirstComeFirstServed(k, acts[1..], s);
      }
    }
  }

  lemma Appended(w: seq<Tid>, j: seq<Tid>, l: seq<Tid>, w1: seq<Tid>, js: seq<Tid>, ls: seq<Tid>, w2: seq<Tid>)
    requires w + j == l + w1 && w1 + js == ls + w2
    ensures w + (j + js) == (l + ls) + w2
  {
    assert w + (j + js) == (w + j) + js == l + (w1 + js);
  }

  // Executions of SemaphoreUp's body on s.
  function Ups(k: Kernel, acts: seq<Action>, s: Sid): nat
    requires Formed(k)
    decreases acts
  {
    if acts == [] then 0
    else match Step(k, acts[0])
      case Next(k') => (if IsUp(k, acts[0], s) then 1 else 0) + if Formed(k') then Ups(k', acts[1..], s) else 0
      case Halt(_) => 0
      case Disabled => Ups(k, acts[1..], s)
  }

  // A thread with n others before it sleeps through n ups ...
  lemma {:induction false} SleepsThrough(k: Kernel, acts: seq<Action>, s: Sid, n: nat)
    requires SchedInv(k) && s in k.sems && n < |k.sems[s].waiting|
    requires Run(k, acts).Next? && Ups(k, acts, s) <= n
    ensures var k', t, m := Run(k, acts).k, k.sems[s].waiting[n], n - Ups(k, acts, s);
            && SchedInv(k') && s in k'.sems && Asleep(k', s, t)
            && m < |k'.sems[s].waiting| && k'.sems[s].waiting[m] == t
    decreases acts
  {
    hide WaitOk, ReadyOk, Step, Asleep;
    if acts == [] {
      AsleepIff(k, s);
    } else {
      StepKeepsSched(k, acts[0]);
      match Step(k, acts[0]) {
        case Next(k1) =>
          StepWaiting(k, acts[0], s);
          SleepsThrough(k1, acts[1..], s, if IsUp(k, acts[0], s) then n - 1 else n);
        case Disabled => SleepsThrough(k, acts[1..], s, n);
      }
    }
  }

  // ... and is woken by the next.
  lemma WokenInTurn(k: Kernel, acts: seq<Action>, s: Sid, n: nat)
    requires SchedInv(k) && s in k.sems && n < |k.sems[s].waiting|
    requires Run(k, acts).Next? && Ups(k, acts, s) == n
    ensures var k', t := Run(k, acts).k, k.sems[s].waiting[n];
            && SchedInv(k') && Asleep(k', s, t)
            && (IsUp(k', Advance, s) ==>
                  && Step(k', Advance).Next? && t in Step(k', Advance).k.threads
                  && Step(k', Advance).k.threads[t].status.Ready?)
  {
    SleepsThrough(k, acts, s, n);
    var k' := Run(k, acts).k;
    if IsUp(k', Advance, s) { UpWakes(k', s); }
  }

  lemma UpWakes(k: Kernel, s: Sid)
    requires SchedInv(k) && s in k.sems && k.sems[s].waiting != [] && IsUp(k, Advance, s)
    ensures var t := k.sems[s].waiting[0];
            Step(k, Advance).Next? && t in Step(k, Advance).k.threads && Step(k, Advance).k.threads[t].status.Ready?
  {
    WakeFacts(k, s);
    hide WaitOk, ReadyOk;
  }

  // ----- the count

  // The step takes the semaphore: a down that does not fall asleep.
  predicate IsTake(k: Kernel, a: Action, s: Sid)
    requires Formed(k)
  {
    && a.Advance? && (k.threads[k.running].pc == Down(s) || k.threads[k.running].pc == Retest(s))
    && Step(k, a).Next? && !Asleep(Step(k, a).k, s, k.running)
  }

  function Takes(k: Kernel, acts: seq<Action>, s: Sid): nat
    requires Formed(k)
    decreases acts
  {
    if acts == [] then 0
    else match Step(k, acts[0])
      case Next(k') => (if IsTake(k, acts[0], s) then 1 else 0) + if Formed(k') then Takes(k', acts[1..], s) else 0
      case Halt(_) => 0
      case Disabled => Takes(k, acts[1..], s)
  }

  lemma StepCount(k: Kernel, a: Action, s: Sid)
    requires SchedInv(k) && s in k.sems && Step(k, a).Next?
    ensures var k' := Step(k, a).k;
            && s in k'.sems
            && if IsTake(k, a, s) then !IsUp(k, a, s) && k'.sems[s].value + 1 == k.sems[s].value
               else k'.sems[s].value == if IsUp(k, a, s) then (k.sems[s].value + 1) % 256 else k.sems[s].value
  {
    hide WaitOk, ReadyOk, UpStep, DownStep, LockCode;
    match a {
      case Tick =>
      case Call(_) =>
      case Spawn(_, _) =>
      case Advance =>
        var pc := k.threads[k.running].pc;
        assert PcOk(k, pc);
        if LockPc(pc) { LockCodeFrame(k); } else if pc.Up? { UpCount(k, pc.s, s); } else { DownCount(k, pc.s, s); }
    }
  }

  lemma UpCount(k: Kernel, u: Sid, s: Sid)
    requires SchedInv(k) && s in k.sems && u in k.sems && UpStep(k, u).Next?
    ensures var k' := UpStep(k, u).k;
            s in k'.sems && k'.sems[s].value == if s == u then (k.sems[s].value + 1) % 256 else k.sems[s].value
  {
    hide WaitOk, ReadyOk;
  }

  lemma DownCount(k: Kernel, d: Sid, s: Sid)
    requires SchedInv(k) && s in k.sems && d in k.sems && DownStep(k, d).Next?
    requires k.threads[k.running].pc == Down(d) || k.threads[k.running].pc == Retest(d)
    ensures var k' := DownStep(k, d).k;
            && s in k'.sems
            && if s == d && !Asleep(k', s, k.running) then k'.sems[s].value + 1 == k.sems[s].value
               else k'.sems[s].value == k.sems[s].value
  {
    OneListEach(k, k.running);
    hide WaitOk;
    assert k.running !in k.ready && (k.ready != [] ==> k.ready[0] in k.ready);
    hide ReadyOk;
  }

  lemma SameRest(x: nat, y: nat, d: nat)
    requires x % 256 == y % 256
    ensures (x + d) % 256 == (y + d) % 256
  {
    assert x + d == y + d + 256 * (x / 256 - y / 256);
  }

  // The value is what it was, plus ups, minus takes, in 8 bits.
  lemma {:induction false} ValueCounts(k: Kernel, acts: seq<Action>, s: Sid)
    requires SchedInv(k) && s in k.sems && Run(k, acts).Next?
    ensures var k' := Run(k, acts).k;
            && s in k'.sems
            && (k'.sems[s].value + Takes(k, acts, s)) % 256 == (k.sems[s].value + Ups(k, acts, s)) % 256
    decreases acts
  {
    hide WaitOk, ReadyOk, Step, IsTake;
    if acts != [] {
      StepKeepsSched(k, acts[0]);
      match Step(k, acts[0]) {
        case Next(k1) =>
          StepCount(k, acts[0], s);
          ValueCounts(k1, acts[1..], s);
          var t, u := Takes(k1, acts[1..], s), Ups(k1, acts[1..], s);
          SameRest(Run(k, acts).k.sems[s].value + t, k1.sems[s].value + u, 1);
          SameRest((k.sems[s].value + 1) % 256, k.sems[s].value + 1, u);
        case Disabled => ValueCounts(k, acts[1..], s);
      }
    }
  }
}
