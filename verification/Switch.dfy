// Context switches on per-thread kernel stacks (source/thread/switch.S:4-20,
// source/thread/thread.c:25-36 and 78-131). Addresses are word indices; a PCB and the stack above it
// share one page.
module Switch {
  import opened Basics

  const STACK_PAGE := 1024
  const PCB_WORDS := 59         // struct task_struct
  const INT_STACK := 76         // sizeof(struct INT_stack) and sizeof(struct thread_stack): bytes, but
  const THREAD_STACK := 32      // subtracted from a pointer to words

  const KERNEL_THREAD: nat := 1 // the address of KernelThread; any value would do

  // The registers switch_to saves for its caller.
  datatype Saved = Saved(ebp: nat, ebx: nat, edi: nat, esi: nat)
  datatype Cpu = Cpu(mem: Memory, esp: nat, regs: Saved, eip: nat)

  // thread.c:25-30
  function CurrentPCB(esp: nat): nat { esp - esp % STACK_PAGE }

  // ----- the code

  class Processor {
    var c: Cpu

    method Push(v: nat)
      requires c.esp > 0
      modifies this
      ensures c == old(c).(mem := old(c).mem[old(c).esp - 1 := v], esp := old(c).esp - 1)
    {
      c := c.(mem := c.mem[c.esp - 1 := v], esp := c.esp - 1);
    }

    method Pop() returns (v: nat)
      modifies this
      ensures v == Load(c.mem, old(c).esp) && c == old(c).(esp := old(c).esp + 1)
    {
      v := Load(c.mem, c.esp);
      c := c.(esp := c.esp + 1);
    }

    // switch.S:4-20, from the call's entry to the instruction after ret
    method SwitchTo()
      requires c.esp >= 4
      modifies this
      ensures c == Switched(old(c))
    {
      ghost var c0 := c;
      Save();
      hide Stored, Restored;
      var next := Load(c.mem, c.esp + 6);
      c := c.(esp := Load(c.mem, next));
      Restore();
    }

    // switch.S:6-12
    method Save()
      requires c.esp >= 4
      modifies this
      ensures c == old(c).(mem := Stored(old(c)), esp := old(c).esp - 4)
    {
      ghost var c0 := c;
      Push(c.regs.esi);
      Push(c.regs.edi);
      Push(c.regs.ebx);
      Push(c.regs.ebp);
      assert c == c0.(mem := Pushed(c0), esp := c0.esp - 4);
      hide Pushed;
      var current := Load(c.mem, c.esp + 5);
      c := c.(mem := c.mem[current := c.esp]);
    }

    // switch.S:16-20
    method Restore()
      modifies this
      ensures c == Restored(old(c).mem, old(c).esp)
    {
      var ebp := Pop();
      var ebx := Pop();
      var edi := Pop();
      var esi := Pop();
      var eip := Pop();
      c := c.(regs := Saved(ebp, ebx, edi, esi), eip := eip);
    }

    // thread.c:117-124: a page from kpalloc, which clears it, becomes a PCB with its first frame.
    // Nothing outside the page changes, and the new thread is ready to be switched to.
    method NewThread(p: nat, fields: Memory, function_: nat, arg: nat)
      requires forall a | a in fields :: p < a < p + PCB_WORDS
      modifies this
      ensures c == old(c).(mem := Started(old(c).mem, p, fields, function_, arg))
      ensures Framed(c.mem, p, Resume(Saved(0, 0, 0, 0), KERNEL_THREAD, p + FRAME + 5, c.mem))
      ensures Load(c.mem, p + FRAME + 6) == function_ && Load(c.mem, p + FRAME + 7) == arg
      ensures forall a: nat | !(p <= a < p + STACK_PAGE) :: Load(c.mem, a) == Load(old(c).mem, a)
    {
      hide WithFrame, Initialised, Framed, Restored, Load;
      StartedAt(c.mem, p, fields, function_, arg);
      InitialisedAt(c.mem + Zeros(p, STACK_PAGE), p, fields);
      c := c.(mem := c.mem + Zeros(p, STACK_PAGE));
      InitThread(p, fields);
      ThreadCreate(p, function_, arg);
      NewFrame(c.mem, p);
    }

    // thread.c:94-115; fields: what it puts into the PCB besides the stack pointer
    method InitThread(p: nat, fields: Memory)
      modifies this
      ensures c == old(c).(mem := Initialised(old(c).mem, p, fields))
    {
      c := c.(mem := c.mem + Zeros(p, PCB_WORDS));
      c := c.(mem := c.mem + fields);
      c := c.(mem := c.mem[p := p + STACK_PAGE]);
    }

    // thread.c:81-84
    method ReserveStacks(p: nat)
      requires Load(c.mem, p) >= INT_STACK + THREAD_STACK
      modifies this
      ensures Load(c.mem, p) == Load(old(c).mem, p) - INT_STACK - THREAD_STACK
      ensures c == old(c).(mem := old(c).mem[p := Load(old(c).mem, p) - INT_STACK - THREAD_STACK])
    {
      c := c.(mem := c.mem[p := Load(c.mem, p) - INT_STACK]);
      c := c.(mem := c.mem[p := Load(c.mem, p) - THREAD_STACK]);
      assert c.mem == old(c).mem[p := Load(old(c).mem, p) - INT_STACK - THREAD_STACK];
    }

    // thread.c:78-91
    method ThreadCreate(p: nat, function_: nat, arg: nat)
      requires Load(c.mem, p) >= INT_STACK + THREAD_STACK
      modifies this
      ensures c == old(c).(mem := WithFrame(old(c).mem, p, function_, arg))
    {
      ReserveStacks(p);
      var frame := Load(c.mem, p);
      hide Load;
      c := c.(mem := c.mem[frame + 4 := KERNEL_THREAD]);
      c := c.(mem := c.mem[frame + 6 := function_]);
      c := c.(mem := c.mem[frame + 7 := arg]);
      c := c.(mem := c.mem[frame + 2 := 0]);
      c := c.(mem := c.mem[frame + 3 := 0]);
      c := c.(mem := c.mem[frame := 0]);
    }
  }

  // Memory after the four pushes, and with esp stored into the old PCB.
  function Pushed(c: Cpu): Memory
    requires c.esp >= 4
  {
    c.mem[c.esp - 1 := c.regs.esi][c.esp - 2 := c.regs.edi][c.esp - 3 := c.regs.ebx][c.esp - 4 := c.regs.ebp]
  }

  function Stored(c: Cpu): Memory
    requires c.esp >= 4
  {
    Pushed(c)[Load(Pushed(c), c.esp + 1) := c.esp - 4]
  }

  function Restored(m: Memory, s: nat): Cpu
  {
    Cpu(m, s + 5, Saved(Load(m, s), Load(m, s + 1), Load(m, s + 2), Load(m, s + 3)), Load(m, s + 4))
  }

  function Switched(c: Cpu): Cpu
    requires c.esp >= 4
  {
    var m := Stored(c);
    Restored(m, Load(m, Load(m, c.esp + 2)))
  }

  const FRAME := STACK_PAGE - INT_STACK - THREAD_STACK

  function Initialised(m: Memory, p: nat, fields: Memory): Memory
  {
    (m + Zeros(p, PCB_WORDS) + fields)[p := p + STACK_PAGE]
  }

  function WithFrame(m: Memory, p: nat, function_: nat, arg: nat): Memory
    requires Load(m, p) >= INT_STACK + THREAD_STACK
  {
    var f := Load(m, p) - INT_STACK - THREAD_STACK;
    m[p := f][f + 4 := KERNEL_THREAD][f + 6 := function_][f + 7 := arg][f + 2 := 0][f + 3 := 0][f := 0]
  }

  // thread.c:117-124: a page from kpalloc, which clears it, then InitThread and ThreadCreate
  function Started(m: Memory, p: nat, fields: Memory, function_: nat, arg: nat): Memory
  {
    WithFrame(Initialised(m + Zeros(p, STACK_PAGE), p, fields), p, function_, arg)
  }

  // ----- threads

  // What a suspended thread is owed: registers, return point, stack pointer, and the words of its
  // stack from there up as `stack` has them.
  datatype Resume = Resume(regs: Saved, ret: nat, esp: nat, stack: Memory)

  // The machine, the running thread, and the suspended ones.
  datatype Conf = Conf(c: Cpu, current: nat, waiting: map<nat, Resume>)

  predicate IsPCB(p: nat) { 0 < p && p % STACK_PAGE == 0 }

  ghost predicate SameStack(m: Memory, m': Memory, lo: nat, hi: nat)
  {
    forall a: nat | lo <= a < hi :: Load(m', a) == Load(m, a)
  }

  // The frame that switch_to left, or ThreadCreate made, on the stack of q.
  ghost predicate Framed(m: Memory, q: nat, r: Resume)
  {
    var s := Load(m, q);
    && q + PCB_WORDS <= s && s + 5 == r.esp < q + STACK_PAGE
    && Restored(m, s) == Cpu(m, r.esp, r.regs, r.ret) && SameStack(r.stack, m, r.esp, q + STACK_PAGE)
  }

  predicate InStack(p: nat, esp: nat) { p + PCB_WORDS <= esp < p + STACK_PAGE }

  ghost predicate ConfOk(x: Conf)
  {
    && IsPCB(x.current) && InStack(x.current, x.c.esp) && x.current !in x.waiting
    && forall q | q in x.waiting :: IsPCB(q) && Framed(x.c.mem, q, x.waiting[q])
  }

  // ----- steps

  datatype Event =
    | Compute(c': Cpu)
    | Switching(next: nat)
    | Start(p: nat, fields: Memory, function_: nat, arg: nat)

  // The running thread may do anything but write over the saved stack pointer or the used stack of
  // a suspended one, and it stays in its own stack.
  ghost predicate Tame(x: Conf, c': Cpu)
  {
    && InStack(x.current, c'.esp)
    && forall q | q in x.waiting :: Load(c'.mem, q) == Load(x.c.mem, q) && SameStack(x.c.mem, c'.mem, Load(x.c.mem, q), q + STACK_PAGE)
  }

  // The call switch_to(current, next): return point and arguments on the stack, room for four more.
  predicate Calling(x: Conf, next: nat)
  {
    && x.c.esp >= 4 && InStack(x.current, x.c.esp - 4) && x.c.esp + 2 < x.current + STACK_PAGE
    && Load(x.c.mem, x.c.esp + 1) == x.current && Load(x.c.mem, x.c.esp + 2) == next
    && (next == x.current || next in x.waiting)
  }

  ghost predicate Enabled(x: Conf, e: Event)
  {
    match e
    case Compute(c') => Tame(x, c')
    case Switching(next) => Calling(x, next)
    case Start(p, fields, _, _) => IsPCB(p) && p != x.current && p !in x.waiting && forall a | a in fields :: p < a < p + PCB_WORDS
  }

  // The thread that calls switch_to is owed its registers and the return point on top of its stack.
  function Owed(c: Cpu): Resume { Resume(c.regs, Load(c.mem, c.esp), c.esp + 1, c.mem) }

  // All threads with what they are owed, the caller of switch_to included.
  function Waiting(x: Conf): map<nat, Resume> { x.waiting[x.current := Owed(x.c)] }

  ghost function Next(x: Conf, e: Event): Conf
    requires Enabled(x, e)
  {
    match e
    case Compute(c') => x.(c := c')
    case Switching(next) => Conf(Switched(x.c), next, Waiting(x) - {next})
    case Start(p, fields, f, arg) =>
      var m := Started(x.c.mem, p, fields, f, arg);
      Conf(x.c.(mem := m), x.current, x.waiting[p := Resume(Saved(0, 0, 0, 0), KERNEL_THREAD, p + FRAME + 5, m)])
  }

  // ----- what each step keeps

  lemma PagesApart(p: nat, q: nat)
    requires IsPCB(p) && IsPCB(q) && p != q
    ensures p + STACK_PAGE <= q || q + STACK_PAGE <= p
  {
  }

  // A frame survives writes outside its saved pointer and used stack.
  lemma FrameKept(m: Memory, m': Memory, q: nat, r: Resume)
    requires Framed(m, q, r) && Load(m', q) == Load(m, q) && SameStack(m, m', Load(m, q), q + STACK_PAGE)
    ensures Framed(m', q, r)
  {
    var s := Load(m, q);
    assert Load(m', s) == Load(m, s) && Load(m', s + 1) == Load(m, s + 1) && Load(m', s + 2) == Load(m, s + 2)
        && Load(m', s + 3) == Load(m, s + 3) && Load(m', s + 4) == Load(m, s + 4);
    forall a: nat | r.esp <= a < q + STACK_PAGE ensures Load(m', a) == Load(r.stack, a) { assert Load(m', a) == Load(m, a); }
  }

  lemma StoredAt(c: Cpu, p: nat)
    requires c.esp >= 4 && InStack(p, c.esp - 4) && c.esp < p + STACK_PAGE && Load(c.mem, c.esp + 1) == p
    ensures var m := Stored(c);
            && Load(m, p) == c.esp - 4 && Load(m, c.esp - 4) == c.regs.ebp && Load(m, c.esp - 3) == c.regs.ebx
            && Load(m, c.esp - 2) == c.regs.edi && Load(m, c.esp - 1) == c.regs.esi
            && forall a: nat | a != p && !(c.esp - 4 <= a < c.esp) :: Load(m, a) == Load(c.mem, a)
  {
  }

  // The caller's frame is in place, and the other frames are untouched.
  lemma StoredFrames(x: Conf, next: nat)
    requires ConfOk(x) && Calling(x, next)
    ensures forall q | q in Waiting(x) :: Framed(Stored(x.c), q, Waiting(x)[q])
    ensures Load(Stored(x.c), x.c.esp + 2) == next
  {
    hide Stored, Framed, Owed, Load;
    var m, p := Stored(x.c), x.current;
    CallFacts(x, next);
    StoredAt(x.c, p);
    OwnFrame(x.c, p, m);
    forall q | q in x.waiting ensures Framed(m, q, x.waiting[q]) { OtherFrame(x, m, q); }
    hide ConfOk;
    forall q | q in Waiting(x) ensures Framed(m, q, Waiting(x)[q]) { if q != p { assert q in x.waiting; } }
  }

  lemma CallFacts(x: Conf, next: nat)
    requires ConfOk(x) && Calling(x, next)
    ensures x.c.esp >= 4 && InStack(x.current, x.c.esp - 4) && x.c.esp + 2 < x.current + STACK_PAGE
    ensures Load(x.c.mem, x.c.esp + 1) == x.current && Load(x.c.mem, x.c.esp + 2) == next
  {
  }

  lemma OtherFrame(x: Conf, m: Memory, q: nat)
    requires ConfOk(x) && x.c.esp >= 4 && InStack(x.current, x.c.esp - 4) && q in x.waiting
    requires forall a: nat | a != x.current && !(x.c.esp - 4 <= a < x.c.esp) :: Load(m, a) == Load(x.c.mem, a)
    ensures Framed(m, q, x.waiting[q])
  {
    PagesApart(x.current, q);
    assert Framed(x.c.mem, q, x.waiting[q]);
    FrameKept(x.c.mem, m, q, x.waiting[q]);
  }

  lemma OwnFrame(c: Cpu, p: nat, m: Memory)
    requires c.esp >= 4 && InStack(p, c.esp - 4) && c.esp + 1 < p + STACK_PAGE
    requires && Load(m, p) == c.esp - 4 && Load(m, c.esp - 4) == c.regs.ebp && Load(m, c.esp - 3) == c.regs.ebx
             && Load(m, c.esp - 2) == c.regs.edi && Load(m, c.esp - 1) == c.regs.esi
             && forall a: nat | a != p && !(c.esp - 4 <= a < c.esp) :: Load(m, a) == Load(c.mem, a)
    ensures Framed(m, p, Owed(c))
  {
  }

  // Whoever is switched to gets what it is owed.
  lemma SwitchResumes(x: Conf, next: nat)
    requires ConfOk(x) && Enabled(x, Switching(next))
    ensures var x' := Next(x, Switching(next));
            var r := Waiting(x)[next];
            && ConfOk(x') && x'.c.regs == r.regs && x'.c.eip == r.ret && x'.c.esp == r.esp
            && SameStack(r.stack, x'.c.mem, r.esp, next + STACK_PAGE)
  {
    SwitchedIs(x, next);
    StoredFrames(x, next);
    hide Stored, Switched, Owed;
    SwitchKeeps(x, next);
  }

  lemma FrameGives(m: Memory, q: nat, r: Resume)
    requires Framed(m, q, r)
    ensures Restored(m, Load(m, q)) == Cpu(m, r.esp, r.regs, r.ret) && InStack(q, r.esp)
    ensures SameStack(r.stack, m, r.esp, q + STACK_PAGE)
  {
  }

  lemma SwitchedIs(x: Conf, next: nat)
    requires ConfOk(x) && Calling(x, next)
    ensures var r := Waiting(x)[next];
            && Switched(x.c) == Cpu(Stored(x.c), r.esp, r.regs, r.ret) && InStack(next, r.esp)
            && SameStack(r.stack, Stored(x.c), r.esp, next + STACK_PAGE)
  {
    hide ConfOk, Stored, Owed, Load, Framed, Restored, SameStack, InStack;
    StoredFrames(x, next);
    var m, r := Stored(x.c), Waiting(x)[next];
    assert next in Waiting(x);
    FrameGives(m, next, r);
  }

  lemma SwitchKeeps(x: Conf, next: nat)
    requires ConfOk(x) && Enabled(x, Switching(next)) && Switched(x.c).mem == Stored(x.c) && InStack(next, Switched(x.c).esp)
    requires forall q | q in Waiting(x) :: Framed(Stored(x.c), q, Waiting(x)[q])
    ensures ConfOk(Next(x, Switching(next)))
  {
    hide Stored, Switched, Owed, Framed;
  }

  lemma InitialisedAt(m: Memory, p: nat, fields: Memory)
    requires forall a | a in fields :: p < a < p + PCB_WORDS
    ensures Load(Initialised(m, p, fields), p) == p + STACK_PAGE
    ensures forall a: nat | !(p <= a < p + PCB_WORDS) :: Load(Initialised(m, p, fields), a) == Load(m, a)
  {
  }

  lemma WithFrameAt(m: Memory, p: nat, f: nat, arg: nat)
    requires Load(m, p) == p + STACK_PAGE && Load(m, p + FRAME + 1) == 0
    ensures var m' := WithFrame(m, p, f, arg);
            var s := p + FRAME;
            && Load(m', p) == s && Restored(m', s) == Cpu(m', s + 5, Saved(0, 0, 0, 0), KERNEL_THREAD)
            && Load(m', s + 6) == f && Load(m', s + 7) == arg
            && forall a: nat | !(p <= a < p + STACK_PAGE) :: Load(m', a) == Load(m, a)
  {
  }

  lemma StartedAt(m: Memory, p: nat, fields: Memory, f: nat, arg: nat)
    requires forall a | a in fields :: p < a < p + PCB_WORDS
    ensures var m' := Started(m, p, fields, f, arg);
            var s := p + FRAME;
            && Load(m', p) == s == p + 1024 - 108 && Restored(m', s) == Cpu(m', s + 5, Saved(0, 0, 0, 0), KERNEL_THREAD)
            && Load(m', s + 6) == f && Load(m', s + 7) == arg
            && forall a: nat | !(p <= a < p + STACK_PAGE) :: Load(m', a) == Load(m, a)
  {
    var z := m + Zeros(p, STACK_PAGE);
    InitialisedAt(z, p, fields);
    WithFrameAt(Initialised(z, p, fields), p, f, arg);
    hide Initialised, WithFrame;
  }

  lemma StartOk(x: Conf, e: Event)
    requires ConfOk(x) && Enabled(x, e) && e.Start?
    ensures ConfOk(Next(x, e))
  {
    hide Started, Framed, Restored, Load;
    StartedAt(x.c.mem, e.p, e.fields, e.function_, e.arg);
    var x' := Next(x, e);
    NewFrame(x'.c.mem, e.p);
    forall q | q in x.waiting ensures Framed(x'.c.mem, q, x.waiting[q]) { FarFrame(x.c.mem, x'.c.mem, e.p, q, x.waiting[q]); }
  }

  lemma NewFrame(m: Memory, p: nat)
    requires Load(m, p) == p + FRAME && Restored(m, p + FRAME) == Cpu(m, p + FRAME + 5, Saved(0, 0, 0, 0), KERNEL_THREAD)
    ensures Framed(m, p, Resume(Saved(0, 0, 0, 0), KERNEL_THREAD, p + FRAME + 5, m))
  {
  }

  // A frame survives writes to another thread's page.
  lemma FarFrame(m: Memory, m': Memory, p: nat, q: nat, r: Resume)
    requires IsPCB(p) && IsPCB(q) && p != q && Framed(m, q, r)
    requires forall a: nat | !(p <= a < p + STACK_PAGE) :: Load(m', a) == Load(m, a)
    ensures Framed(m', q, r)
  {
    PagesApart(p, q);
    FrameKept(m, m', q, r);
  }

  lemma ComputeOk(x: Conf, c': Cpu)
    requires ConfOk(x) && Tame(x, c')
    ensures ConfOk(x.(c := c'))
  {
    forall q | q in x.waiting ensures Framed(c'.mem, q, x.waiting[q]) { FrameKept(x.c.mem, c'.mem, q, x.waiting[q]); }
  }

  lemma StepOk(x: Conf, e: Event)
    requires ConfOk(x) && Enabled(x, e)
    ensures ConfOk(Next(x, e))
  {
    match e {
      case Compute(c') => ComputeOk(x, c');
      case Switching(next) => SwitchResumes(x, next);
      case Start(_, _, _, _) => StartOk(x, e);
    }
  }

  // ----- whole schedules

  ghost predicate Stepped(x: Conf, e: Event, x': Conf) { Enabled(x, e) && x' == Next(x, e) }

  ghost predicate Schedule(xs: seq<Conf>, es: seq<Event>)
  {
    && |xs| == |es| + 1 && ConfOk(xs[0])
    && forall i, j | 0 <= i && j == i + 1 && j < |xs| :: Stepped(xs[i], es[i], xs[j])
  }

  // Masking esp gives the running thread in every state.
  lemma {:induction false} AlwaysOk(xs: seq<Conf>, es: seq<Event>, n: nat)
    requires Schedule(xs, es) && n < |xs|
    ensures ConfOk(xs[n]) && CurrentPCB(xs[n].c.esp) == xs[n].current
  {
    hide ConfOk, Enabled, Next, CurrentPCB;
    if n > 0 {
      AlwaysOk(xs, es, n - 1);
      var i, j := n - 1, n;
      assert Stepped(xs[i], es[i], xs[j]);
      StepOk(xs[i], es[i]);
    }
    MaskedStack(xs[n]);
  }

  lemma MaskedStack(x: Conf)
    requires ConfOk(x)
    ensures CurrentPCB(x.c.esp) == x.current
  {
  }

  ghost predicate Suspended(xs: seq<Conf>, t: nat, i: nat, j: nat)
    requires j <= |xs|
  {
    forall k | i < k < j :: xs[k].current != t
  }

  // While t does not run, nobody else is given what t is owed, and t is owed the same.
  lemma {:induction false} StillOwed(xs: seq<Conf>, es: seq<Event>, t: nat, r: Resume, i: nat, j: nat)
    requires Schedule(xs, es) && i <= j < |xs| && t in xs[i].waiting && xs[i].waiting[t] == r
    requires forall k | i < k <= j :: xs[k].current != t
    ensures t in xs[j].waiting && xs[j].waiting[t] == r
    decreases j - i
  {
    if i < j {
      var k, l := j - 1, j;
      StillOwed(xs, es, t, r, i, k);
      AlwaysOk(xs, es, k);
      assert Stepped(xs[k], es[k], xs[l]);
      assert xs[j].current != t;
    }
  }

  // A thread that calls switch_to at i and runs again first at j finds its registers, its return
  // point and every word of its stack as it left them, whatever ran in between.
  lemma ResumedThread(xs: seq<Conf>, es: seq<Event>, t: nat, i: nat, j: nat)
    requires Schedule(xs, es) && i + 1 <= j < |xs| && xs[i].current == t && es[i].Switching?
    requires Suspended(xs, t, i, j) && xs[j].current == t
    ensures xs[j].c.regs == xs[i].c.regs && xs[j].c.eip == Load(xs[i].c.mem, xs[i].c.esp) && xs[j].c.esp == xs[i].c.esp + 1
    ensures SameStack(xs[i].c.mem, xs[j].c.mem, xs[i].c.esp + 1, t + STACK_PAGE)
  {
    var a, b := i, i + 1;
    assert Stepped(xs[a], es[a], xs[b]);
    AlwaysOk(xs, es, i);
    hide ConfOk;
    SwitchResumes(xs[i], es[i].next);
    if j > i + 1 { Redispatched(xs, es, t, Owed(xs[i].c), i + 1, j); }
  }

  // A thread owed r at i that runs first at j gets r there.
  lemma Redispatched(xs: seq<Conf>, es: seq<Event>, t: nat, r: Resume, i: nat, j: nat)
    requires Schedule(xs, es) && i < j < |xs| && t in xs[i].waiting && xs[i].waiting[t] == r
    requires (forall k | i <= k < j :: xs[k].current != t) && xs[j].current == t
    ensures xs[j].c.regs == r.regs && xs[j].c.eip == r.ret && xs[j].c.esp == r.esp
    ensures SameStack(r.stack, xs[j].c.mem, r.esp, t + STACK_PAGE)
  {
    var a, b := j - 1, j;
    StillOwed(xs, es, t, r, i, a);
    AlwaysOk(xs, es, a);
    assert Stepped(xs[a], es[a], xs[b]);
    assert xs[a].current != t;
    hide ConfOk;
    match es[a] {
      case Switching(next) => SwitchResumes(xs[a], next);
      case Compute(_) =>
      case Start(_, _, _, _) =>
    }
  }

  // A new thread's first instruction is KernelThread's, with its own function and argument in place.
  lemma FreshThread(xs: seq<Conf>, es: seq<Event>, i: nat, j: nat)
    requires Schedule(xs, es) && i + 1 < j < |xs| && es[i].Start?
    requires var t := es[i].p; (forall k | i < k < j :: xs[k].current != t) && xs[j].current == t
    ensures var e, c := es[i], xs[j].c;
            && c.eip == KERNEL_THREAD && c.regs == Saved(0, 0, 0, 0) && c.esp == e.p + FRAME + 5
            && Load(c.mem, c.esp + 1) == e.function_ && Load(c.mem, c.esp + 2) == e.arg
  {
    var a, b := i, i + 1;
    assert Stepped(xs[a], es[a], xs[b]);
    var e := es[i];
    StartedAt(xs[i].c.mem, e.p, e.fields, e.function_, e.arg);
    hide Started;
    var m := xs[b].c.mem;
    Redispatched(xs, es, e.p, Resume(Saved(0, 0, 0, 0), KERNEL_THREAD, e.p + FRAME + 5, m), i + 1, j);
    var s := e.p + FRAME;
    assert Load(xs[j].c.mem, s + 6) == Load(m, s + 6) && Load(xs[j].c.mem, s + 7) == Load(m, s + 7);
  }
}
