/** The notification queues of esp32/marstek_ble.py: one list per opcode, six entries at most, the
oldest dropped first.  Opcodes are their numbers; `T` is what is queued. */
module NotifyQueues {
  import opened Options

  const MAX_QUEUE_PER_OPCODE: nat := 6

  type Queues<T> = map<int, seq<T>>

  function Contents<T>(q: Queues<T>, opcode: int): seq<T> { if opcode in q then q[opcode] else [] }

  function Enqueue<T>(q: Queues<T>, opcode: int, x: T): Queues<T> {
    var queue := Contents(q, opcode) + [x];
    q[opcode := if |queue| > MAX_QUEUE_PER_OPCODE then queue[1..] else queue]
  }

  function Front<T>(q: Queues<T>, opcode: int): Option<T> {
    if Contents(q, opcode) == [] then None else Some(q[opcode][0])
  }

  function Dequeue<T>(q: Queues<T>, opcode: int): Queues<T> {
    if Contents(q, opcode) == [] then q
    else if |q[opcode]| == 1 then q - {opcode}
    else q[opcode := q[opcode][1..]]
  }

  /** How many frames of this opcode have been accepted in spite of their checksum. */
  function Mismatches(counts: map<int, nat>, opcode: int): nat { if opcode in counts then counts[opcode] else 0 }

  class Notifications<T> {
    var queues: Queues<T>
    var crcMismatchCount: map<int, nat>

    constructor ()
      ensures queues == map[] && crcMismatchCount == map[]
    {
      queues, crcMismatchCount := map[], map[];
    }

    /** _log_crc_mismatch: counted per opcode; the first three and every twentieth are printed. */
    method LogCrcMismatch(opcode: int) returns (printed: bool)
      modifies `crcMismatchCount
      ensures crcMismatchCount == old(crcMismatchCount)[opcode := Mismatches(old(crcMismatchCount), opcode) + 1]
      ensures printed <==> crcMismatchCount[opcode] in {1, 2, 3} || crcMismatchCount[opcode] % 20 == 0
    {
      var count := (if opcode in crcMismatchCount then crcMismatchCount[opcode] else 0) + 1;
      crcMismatchCount := crcMismatchCount[opcode := count];
      return count <= 3 || count % 20 == 0;
    }

    /** _queue_notification. */
    method Queue(opcode: int, data: T)
      modifies `queues
      ensures queues == Enqueue(old(queues), opcode, data)
    {
      var queue := if opcode in queues then queues[opcode] else [];
      queue := queue + [data];
      if |queue| > MAX_QUEUE_PER_OPCODE {
        queue := queue[1..];
      }
      queues := queues[opcode := queue];
    }

    /** _dequeue_notification. */
    method Take(opcode: int) returns (data: Option<T>)
      modifies `queues
      ensures data == Front(old(queues), opcode) && queues == Dequeue(old(queues), opcode)
    {
      if opcode !in queues || |queues[opcode]| == 0 { return None; }
      var queue := queues[opcode];
      data := Some(queue[0]);
      queue := queue[1..];
      if |queue| == 0 {
        queues := queues - {opcode};
      } else {
        queues := queues[opcode := queue];
      }
    }

    /** _notify_queues.pop(opcode, None). */
    method Pop(opcode: int)
      modifies `queues
      ensures queues == old(queues) - {opcode}
    {
      queues := queues - {opcode};
    }

    /** _clear_notify_queues. */
    method Clear()
      modifies this
      ensures queues == map[] && crcMismatchCount == map[]
    {
      queues, crcMismatchCount := map[], map[];
    }
  }

  // ---------------------------------------------------------------------------------------------
  // Any sequence of operations refines a bounded FIFO

  datatype Op<T> = Arrive(opcode: int, x: T) | Read(opcode: int) | Drop(opcode: int) | Wipe

  function Step<T>(q: Queues<T>, op: Op<T>): Queues<T> {
    match op
    case Arrive(opcode, x) => Enqueue(q, opcode, x)
    case Read(opcode) => Dequeue(q, opcode)
    case Drop(opcode) => q - {opcode}
    case Wipe => map[]
  }

  function AfterOps<T>(ops: seq<Op<T>>): Queues<T> {
    if ops == [] then map[] else Step(AfterOps(ops[..|ops| - 1]), ops[|ops| - 1])
  }

  /** One opcode's arrivals since its queue was last popped or cleared, and how far they have been
      read: `next` is the index after the last one handed out. */
  datatype Stream<T> = Stream(arrivals: seq<T>, next: nat)

  /** The index of the oldest arrival still there to read: six at most are kept. */
  function Oldest<T>(s: Stream<T>): (i: nat)
    ensures s.next <= |s.arrivals| ==> i <= |s.arrivals|
  {
    if |s.arrivals| > MAX_QUEUE_PER_OPCODE && s.next < |s.arrivals| - MAX_QUEUE_PER_OPCODE
    then |s.arrivals| - MAX_QUEUE_PER_OPCODE
    else s.next
  }

  function Follow<T>(s: Stream<T>, op: Op<T>, opcode: int): Stream<T> {
    match op
    case Arrive(o, x) => if o == opcode then s.(arrivals := s.arrivals + [x]) else s
    case Read(o) => if o == opcode && Oldest(s) < |s.arrivals| then s.(next := Oldest(s) + 1) else s
    case Drop(o) => if o == opcode then Stream([], 0) else s
    case Wipe => Stream([], 0)
  }

  function StreamOf<T>(ops: seq<Op<T>>, opcode: int): Stream<T> {
    if ops == [] then Stream([], 0) else Follow(StreamOf(ops[..|ops| - 1], opcode), ops[|ops| - 1], opcode)
  }

  ghost predicate Window<T>(q: Queues<T>, s: Stream<T>, opcode: int) {
    && s.next <= |s.arrivals|
    && Contents(q, opcode) == s.arrivals[Oldest(s)..]
    && (opcode in q ==> q[opcode] != [])
  }

  lemma StepKeepsWindow<T>(q: Queues<T>, s: Stream<T>, op: Op<T>, opcode: int)
    requires Window(q, s, opcode)
    ensures Window(Step(q, op), Follow(s, op, opcode), opcode)
  {
    match op
    case Arrive(o, x) =>
      if o == opcode {
        var all := s.arrivals + [x];
        assert all[Oldest(s)..] == s.arrivals[Oldest(s)..] + [x];
      }
    case Read(o) =>
      if o == opcode && Oldest(s) < |s.arrivals| {
        assert s.arrivals[Oldest(s)..][1..] == s.arrivals[Oldest(s) + 1..];
      }
    case Drop(o) =>
    case Wipe =>
  }

  /** After any operations a stored queue has one to six entries, namely the newest six of the opcode's
      arrivals since it was last emptied by a pop or clear, less those already read. */
  lemma {:induction false} QueueIsWindow<T>(ops: seq<Op<T>>, opcode: int)
    ensures var q, s := AfterOps(ops), StreamOf(ops, opcode);
            && Window(q, s, opcode)
            && (opcode in q ==> 1 <= |q[opcode]| <= 6)
    decreases |ops|
  {
    hide Step, Follow;
    if ops != [] {
      QueueIsWindow(ops[..|ops| - 1], opcode);
      StepKeepsWindow(AfterOps(ops[..|ops| - 1]), StreamOf(ops[..|ops| - 1], opcode), ops[|ops| - 1], opcode);
    }
  }

  /** A read finds nothing exactly when everything has been read; otherwise it hands out an arrival
      later than every one read before, and if it skips any, six newer ones are left to read. */
  lemma ReadInOrder<T>(ops: seq<Op<T>>, opcode: int)
    ensures var q, s, s' := AfterOps(ops), StreamOf(ops, opcode), StreamOf(ops + [Read(opcode)], opcode);
            var i := Oldest(s);
            && (Front(q, opcode).None? <==> s.next == |s.arrivals|)
            && (Front(q, opcode).Some? ==>
                  s.next <= i < |s.arrivals| && Front(q, opcode).value == s.arrivals[i]
                  && s' == Stream(s.arrivals, i + 1))
            && (s.next < i ==> |s.arrivals| - i == 6)
  {
    QueueIsWindow(ops, opcode);
    assert (ops + [Read(opcode)])[..|ops|] == ops;
  }

  /** An operation on one opcode leaves every other opcode's queue alone. */
  lemma OthersUntouched<T>(q: Queues<T>, op: Op<T>, other: int)
    requires !op.Wipe? && op.opcode != other
    ensures (other in Step(q, op) <==> other in q) && Contents(Step(q, op), other) == Contents(q, other)
  {
    match op
    case Arrive(o, x) => assert Step(q, op) == Enqueue(q, o, x);
    case Read(o) => assert Step(q, op) == Dequeue(q, o);
    case Drop(o) => assert Step(q, op) == q - {o};
  }
}
