// The keyboard's ring buffer (source/device/ioqueue.c:6-90) under its two callers, which test before
// they call and run with interrupts off (source/device/keyboard.c:198-201, source/kernel/main.c:214-219).
module IoQueue {
  import opened Basics

  const BUFSIZE := 64

  // producer, consumer: the sleeper slots, each NULL or a thread.
  datatype Ring = Ring(buf: seq<int>, head: nat, tail: nat, producer: Option<nat>, consumer: Option<nat>)
  {
    predicate Valid() { |buf| == BUFSIZE && head < BUFSIZE && tail < BUFSIZE }

    function Length(): nat
      requires Valid()
    {
      (head + BUFSIZE - tail) % BUFSIZE
    }

    // The queue this buffer stands for.
    function Contents(): seq<int>
      requires Valid()
    {
      Slots(buf, tail, Length())
    }
  }

  // n slots from tail on, around the end.
  function Slots(buf: seq<int>, tail: nat, n: nat): (s: seq<int>)
    requires |buf| == BUFSIZE
    ensures |s| == n && forall i: nat | i < n :: s[i] == buf[(tail + i) % BUFSIZE]
  {
    if n == 0 then [] else Slots(buf, tail, n - 1) + [buf[(tail + n - 1) % BUFSIZE]]
  }

  // ioqueue.c:14-17
  function NextPos(i: nat): nat { (i + 1) % BUFSIZE }

  // ioqueue.c:19-29
  predicate Full(r: Ring) { NextPos(r.head) == r.tail }
  predicate Empty(r: Ring) { r.head == r.tail }

  // Effect: the call returns, having woken a thread or none. Sleeps: the caller blocks, and tests again
  // when woken. Spins: the ASSERT of line 34 or 42 fails.
  datatype Effect = Effect(ring: Ring, awake: Option<nat>) | Sleeps(ring: Ring) | Spins

  // ioqueue.c:39-45 on the producer slot
  function WakeProducer(r: Ring): Effect
  {
    if r.producer.None? then Spins else Effect(r.(producer := None), r.producer)
  }

  // ioqueue.c:47-67 for caller self: one test of the wait loop, and what follows it
  function Get(r: Ring, self: nat): Effect
    requires r.Valid()
  {
    if Empty(r) then if r.consumer.Some? then Spins else Sleeps(r.(consumer := Some(self)))
    else
      var r' := r.(tail := NextPos(r.tail));
      if r.producer.Some? then WakeProducer(r') else Effect(r', None)
  }

  // ioqueue.c:69-90 likewise; a sleeping consumer makes it wake the producer slot
  function Put(r: Ring, byte: int, self: nat): Effect
    requires r.Valid()
  {
    if Full(r) then if r.producer.Some? then Spins else Sleeps(r.(producer := Some(self)))
    else
      var r' := r.(buf := r.buf[r.head := byte], head := NextPos(r.head));
      if r.consumer.Some? then WakeProducer(r') else Effect(r', None)
  }

  predicate Quiet(r: Ring) { r.Valid() && r.producer.None? && r.consumer.None? }

  // ----- the queue

  lemma FullAndEmpty(r: Ring)
    requires r.Valid()
    ensures Empty(r) <==> r.Contents() == []
    ensures Full(r) <==> |r.Contents()| == 63
    ensures |r.Contents()| <= 63
  {
  }

  lemma PutAppends(r: Ring, byte: int, self: nat)
    requires Quiet(r) && !Full(r)
    ensures var e := Put(r, byte, self);
            e.Effect? && e.awake == None && Quiet(e.ring) && e.ring.Contents() == r.Contents() + [byte]
  {
    var r' := Put(r, byte, self).ring;
    var n := r.Length();
    HeadAfterPut(r.head, r.tail);
    SlotsStored(r.buf, r.tail, n, byte);
  }

  lemma HeadAfterPut(head: nat, tail: nat)
    requires head < BUFSIZE && tail < BUFSIZE && NextPos(head) != tail
    ensures var n := (head + BUFSIZE - tail) % BUFSIZE;
            && (tail + n) % BUFSIZE == head && NextPos(head) < BUFSIZE
            && (NextPos(head) + BUFSIZE - tail) % BUFSIZE == n + 1
  {
    var n := (head + BUFSIZE - tail) % BUFSIZE;
    assert n == if tail <= head then head - tail else head + BUFSIZE - tail;
    assert NextPos(head) == if head == BUFSIZE - 1 then 0 else head + 1;
  }

  lemma SlotsStored(buf: seq<int>, tail: nat, n: nat, byte: int)
    requires |buf| == BUFSIZE && n < BUFSIZE && tail < BUFSIZE
    ensures Slots(buf[(tail + n) % BUFSIZE := byte], tail, n + 1) == Slots(buf, tail, n) + [byte]
  {
    var s, s' := Slots(buf, tail, n), Slots(buf[(tail + n) % BUFSIZE := byte], tail, n + 1);
    forall i: nat | i < n ensures s'[i] == s[i] { SlotsDiffer(tail, i, n); }
  }

  lemma SlotsDiffer(tail: nat, i: nat, n: nat)
    requires i < n < BUFSIZE && tail < BUFSIZE
    ensures (tail + i) % BUFSIZE != (tail + n) % BUFSIZE
  {
  }

  lemma GetTakesFirst(r: Ring, self: nat)
    requires Quiet(r) && !Empty(r)
    ensures var e := Get(r, self);
            && e.Effect? && e.awake == None && Quiet(e.ring) && r.Contents() != []
            && r.buf[r.tail] == r.Contents()[0] && e.ring.Contents() == r.Contents()[1..]
  {
    TailAfterGet(r.head, r.tail);
    SlotsTaken(r.buf, r.tail, r.Length());
  }

  lemma TailAfterGet(head: nat, tail: nat)
    requires head < BUFSIZE && tail < BUFSIZE && head != tail
    ensures var n := (head + BUFSIZE - tail) % BUFSIZE;
            0 < n && NextPos(tail) < BUFSIZE && (head + BUFSIZE - NextPos(tail)) % BUFSIZE == n - 1
  {
    assert (head + BUFSIZE - tail) % BUFSIZE == if tail < head then head - tail else head + BUFSIZE - tail;
    assert NextPos(tail) == if tail == BUFSIZE - 1 then 0 else tail + 1;
  }

  lemma SlotsTaken(buf: seq<int>, tail: nat, n: nat)
    requires |buf| == BUFSIZE && tail < BUFSIZE && 0 < n
    ensures Slots(buf, tail, n)[0] == buf[tail] && Slots(buf, NextPos(tail), n - 1) == Slots(buf, tail, n)[1..]
  {
    var s, s' := Slots(buf, tail, n), Slots(buf, NextPos(tail), n - 1);
    forall i: nat | i < n - 1 ensures s'[i] == s[i + 1] { assert (NextPos(tail) + i) % BUFSIZE == (tail + (i + 1)) % BUFSIZE; }
  }

  // The wakeup in ioqueue_putchar looks at one slot and wakes the other: with a consumer asleep it
  // stops the kernel, wakes a producer or sleeps itself, and the consumer sleeps on.
  lemma PutNeverWakesConsumer(r: Ring, byte: int, self: nat)
    requires r.Valid() && r.consumer.Some?
    ensures var e := Put(r, byte, self);
            && (e.Spins? <==> (Full(r) <==> r.producer.Some?))
            && (e.Effect? ==> e.awake == r.producer) && (!e.Spins? ==> e.ring.consumer == r.consumer)
  {
  }

  // A get finds a byte, or its caller falls asleep as the one consumer, or a consumer sleeps already; with
  // a byte it takes the oldest, and wakes the producer if one sleeps.
  lemma GetWakesProducer(r: Ring, self: nat)
    requires r.Valid()
    ensures var e := Get(r, self);
            if r.Contents() == [] then
              if r.consumer.Some? then e.Spins?
              else e.Sleeps? && e.ring.Valid() && e.ring.Contents() == [] && e.ring.consumer == Some(self) && e.ring.producer == r.producer
            else
              && e.Effect? && e.awake == r.producer && e.ring.Valid() && e.ring.Contents() == r.Contents()[1..]
              && e.ring.producer == None && e.ring.consumer == r.consumer
  {
    FullAndEmpty(r);
    if !Empty(r) {
      TailAfterGet(r.head, r.tail);
      SlotsTaken(r.buf, r.tail, r.Length());
    }
  }

  // With no consumer asleep, a put has room, or its caller falls asleep as the one producer, or a producer
  // sleeps already.
  lemma PutWaits(r: Ring, byte: int, self: nat)
    requires r.Valid() && r.consumer.None?
    ensures var e := Put(r, byte, self);
            if |r.Contents()| < 63 then
              && e.Effect? && e.awake == None && e.ring.Valid() && e.ring.Contents() == r.Contents() + [byte]
              && e.ring.producer == r.producer && e.ring.consumer == None
            else if r.producer.Some? then e.Spins?
            else e.Sleeps? && e.ring.Valid() && e.ring.Contents() == r.Contents() && e.ring.producer == Some(self) && e.ring.consumer == None
  {
    FullAndEmpty(r);
    if !Full(r) {
      HeadAfterPut(r.head, r.tail);
      SlotsStored(r.buf, r.tail, r.Length(), byte);
    }
  }

  // ----- runs of the two callers

  // A key arrives (dropped when the buffer is full); the output thread polls.
  datatype Op = Key(byte: int, self: nat) | Poll(self: nat)

  // History: what was accepted and what was read.
  datatype History = History(ring: Ring, written: seq<int>, read: seq<int>)

  datatype Result = Ran(h: History) | Stuck

  function Step(h: History, op: Op): Result
    requires h.ring.Valid()
  {
    match op
    case Key(b, self) =>
      if Full(h.ring) then Ran(h)
      else (match Put(h.ring, b, self) case Effect(r, _) => Ran(History(r, h.written + [b], h.read)) case _ => Stuck)
    case Poll(self) =>
      if Empty(h.ring) then Ran(h)
      else (match Get(h.ring, self) case Effect(r, _) => Ran(History(r, h.written, h.read + [h.ring.buf[h.ring.tail]])) case _ => Stuck)
  }

  // Nobody sleeps, and what was read together with what is queued is what was written.
  predicate Ordered(h: History) { Quiet(h.ring) && h.written == h.read + h.ring.Contents() }

  lemma StepOrdered(h: History, op: Op)
    requires Ordered(h)
    ensures Step(h, op).Ran? && Ordered(Step(h, op).h)
  {
    match op {
      case Key(b, self) =>
        if !Full(h.ring) {
          PutAppends(h.ring, b, self);
          assert (h.read + h.ring.Contents()) + [b] == h.read + (h.ring.Contents() + [b]);
        }
      case Poll(self) =>
        if !Empty(h.ring) {
          GetTakesFirst(h.ring, self);
          var q := h.ring.Contents();
          assert q == [q[0]] + q[1..];
          assert h.read + q == (h.read + [q[0]]) + q[1..];
        }
    }
  }

  function Run(h: History, ops: seq<Op>): Result
    requires h.ring.Valid()
    decreases |ops|
  {
    if ops == [] then Ran(h)
    else match Step(h, ops[0])
      case Stuck => Stuck
      case Ran(h') => if h'.ring.Valid() then Run(h', ops[1..]) else Stuck
  }

  // Every run of keys and polls comes through, keeps at most 63 bytes, leaves the sleeper slots
  // NULL, and has read a prefix of what it accepted, in order.
  lemma {:induction false} RunIsFifo(h: History, ops: seq<Op>)
    requires Ordered(h)
    ensures Run(h, ops).Ran? && Ordered(Run(h, ops).h)
    ensures var h' := Run(h, ops).h;
            && |h'.ring.Contents()| <= 63 && h'.ring.producer == None && h'.ring.consumer == None
            && |h'.read| <= |h'.written| && h'.read == h'.written[..|h'.read|]
    decreases |ops|
  {
    FullAndEmpty(h.ring);
    if ops != [] {
      StepOrdered(h, ops[0]);
      RunIsFifo(Step(h, ops[0]).h, ops[1..]);
    }
  }

  // The simple queue: a key is accepted whenever fewer than 63 are queued, a poll takes the oldest.
  datatype Simple = Simple(queue: seq<int>, written: seq<int>, read: seq<int>)

  function Simply(s: Simple, ops: seq<Op>): Simple
    decreases |ops|
  {
    if ops == [] then s
    else match ops[0]
      case Key(b, _) =>
        Simply(if |s.queue| < 63 then Simple(s.queue + [b], s.written + [b], s.read) else s, ops[1..])
      case Poll(_) =>
        Simply(if s.queue != [] then Simple(s.queue[1..], s.written, s.read + [s.queue[0]]) else s, ops[1..])
  }

  // The ring buffer does what the simple queue does, key by key and poll by poll.
  lemma {:induction false} RunIsSimple(h: History, ops: seq<Op>)
    requires Ordered(h)
    ensures var s := Simply(Simple(h.ring.Contents(), h.written, h.read), ops);
            && Run(h, ops).Ran? && Run(h, ops).h.ring.Valid()
            && var h' := Run(h, ops).h; s == Simple(h'.ring.Contents(), h'.written, h'.read)
    decreases |ops|
  {
    if ops != [] {
      StepOrdered(h, ops[0]);
      FullAndEmpty(h.ring);
      match ops[0] {
        case Key(b, self) => if !Full(h.ring) { PutAppends(h.ring, b, self); }
        case Poll(self) => if !Empty(h.ring) { GetTakesFirst(h.ring, self); }
      }
      RunIsSimple(Step(h, ops[0]).h, ops[1..]);
    }
  }

  // ----- the code

  datatype Wake = Returned(awake: Option<nat>) | Asleep | Asserted

  predicate Agrees(e: Effect, w: Wake, r: Ring)
  {
    e == match w case Returned(a) => Effect(r, a) case Asleep => Sleeps(r) case Asserted => Spins
  }

  class Queue {
    const buf: array<int>
    var head: nat
    var tail: nat
    var producer: Option<nat>
    var consumer: Option<nat>

    ghost predicate Valid() reads this, buf { buf.Length == BUFSIZE && View().Valid() }

    function View(): Ring reads this, buf { Ring(buf[..], head, tail, producer, consumer) }

    // ioqueue.c:6-12; the buffer's bytes are not initialised
    constructor (buf: array<int>)
      requires buf.Length == BUFSIZE
      ensures this.buf == buf && Valid() && Quiet(View()) && View().Contents() == []
    {
      this.buf := buf;
      head, tail, producer, consumer := 0, 0, None, None;
    }

    // keyboard.c:198-201
    method HandleKey(byte: int, self: nat) returns (taken: bool)
      requires Valid() && Quiet(View())
      modifies this, buf
      ensures Valid() && Quiet(View()) && taken == (|old(View().Contents())| < 63)
      ensures View().Contents() == old(View().Contents()) + if taken then [byte] else []
    {
      FullAndEmpty(View());
      taken := NextPos(head) != tail;
      if taken {
        PutAppends(View(), byte, self);
        var _ := PutChar(byte, self);
      }
    }

    // main.c:214-218
    method PollKey(self: nat) returns (byte: Option<int>)
      requires Valid() && Quiet(View())
      modifies this
      ensures Valid() && Quiet(View())
      ensures if old(View().Contents()) == [] then byte == None && View() == old(View())
              else byte == Some(old(View().Contents())[0]) && View().Contents() == old(View().Contents())[1..]
    {
      FullAndEmpty(View());
      byte := None;
      if head != tail {
        GetTakesFirst(View(), self);
        var b, _ := GetChar(self);
        byte := Some(b);
      }
    }

    // ioqueue.c:69-90: one test of the wait loop, and what follows it
    method PutChar(byte: int, self: nat) returns (w: Wake)
      requires Valid()
      modifies this, buf
      ensures Valid() && Agrees(Put(old(View()), byte, self), w, View())
    {
      if NextPos(head) == tail {
        if producer.Some? { return Asserted; }
        producer := Some(self);
        return Asleep;
      }
      buf[head] := byte;
      head := NextPos(head);
      w := Returned(None);
      if consumer.Some? { w := WakeProducerSlot(); }
    }

    // ioqueue.c:47-67: one test of the wait loop, and what follows it
    method GetChar(self: nat) returns (byte: int, w: Wake)
      requires Valid()
      modifies this
      ensures Valid() && (w.Returned? ==> old(tail) < BUFSIZE && byte == old(View()).buf[old(tail)])
      ensures Agrees(Get(old(View()), self), w, View())
    {
      byte := 0;
      if head == tail {
        if consumer.Some? { return 0, Asserted; }
        consumer := Some(self);
        return 0, Asleep;
      }
      byte := buf[tail];
      tail := NextPos(tail);
      w := Returned(None);
      if producer.Some? { w := WakeProducerSlot(); }
    }

    // ioqueue.c:39-45
    method WakeProducerSlot() returns (w: Wake)
      modifies this`producer
      ensures Agrees(WakeProducer(old(View())), w, View())
    {
      if producer.None? { return Asserted; }
      w := Returned(producer);
      producer := None;
    }
  }
}
