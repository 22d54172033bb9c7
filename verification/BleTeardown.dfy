/** What a teardown can cost a command: a run, kept to the clock, in which a frame that has arrived for a
waiting command is cleared away before the command has looked. */
module BleTeardown {
  import opened Options
  import opened BleFrames
  import opened NotifyQueues
  import opened BleProtocol
  import opened BleExchange
  import opened BleTime

  const OPCODE: bv8 := 0x01
  const NUMBER: int := 1

  /** A frame of five bytes with opcode 1, and a full runtime frame. */
  const SHORT: Frame := [START, 5, IDENT, OPCODE, 0]

  function Runtime(): (frame: Frame)
    ensures |frame| == MIN_RUNTIME_FRAME_LEN && frame[0] == START && frame[2] == IDENT && frame[3] == RUNTIME
  {
    [START, 39, IDENT, RUNTIME] + seq(35, _ => 0)
  }

  const TWO := Command(OPCODE, [], true, 2)

  lemma FramesPass()
    ensures Extract(SHORT).Carries? && Extract(SHORT).opcode == OPCODE && Queueable(SHORT, OPCODE)
    ensures Extract(Runtime()).Carries? && Extract(Runtime()).opcode == RUNTIME && Queueable(Runtime(), RUNTIME)
    ensures OPCODE as int == NUMBER && RUNTIME as int == RUNTIME_KEY
    ensures Build(OPCODE, []).Some?
  {
    hide Xor;
  }

  ghost predicate Reached(t0: Timed, acts: seq<TimedAction>, t: Timed) {
    TimedLegal(t0, acts) && TimedRun(t0, acts) == t
  }

  lemma Next(t0: Timed, acts: seq<TimedAction>, t: Timed, a: TimedAction)
    returns (more: seq<TimedAction>, t': Timed)
    requires Reached(t0, acts, t) && TimedEnabled(t, a)
    ensures Reached(t0, more, t') && t' == TimedApply(t, a)
  {
    more, t' := TimedThen(t0, acts, t, a);
  }

  /** From a pause to a new session, its notification task just created. */
  lemma Connect(t0: Timed, before: seq<TimedAction>, t: Timed) returns (acts: seq<TimedAction>, t': Timed)
    requires Reached(t0, before, t) && t.s.main.Pausing? && t.wake <= t.now
    ensures Reached(t0, acts, t') && t'.s.main.PrimeSleep? && t'.wake == t'.now + 80 && t'.due == t.due
    ensures t'.s.link == Link(Priming, true, true, true, t.s.link.nonce + 1, Some(|t.s.notifiers|))
    ensures t'.s.notifiers == t.s.notifiers + [Notifier(t.s.link.nonce + 1, Created)]
    ensures t'.s.queues == map[] && t'.s.log == t.s.log + [Cleared]
    ensures t'.s.callers == t.s.callers && t'.s.lock == t.s.lock
  {
    hide Reached;
    acts, t' := Next(t0, before, t, Do(MainStep(Go)));
    acts, t' := Next(t0, acts, t', Do(MainStep(Go)));
    acts, t' := Next(t0, acts, t', Do(MainStep(Go)));
    acts, t' := Next(t0, acts, t', Pass(250));
    acts, t' := Next(t0, acts, t', Do(MainStep(Go)));
    acts, t' := Next(t0, acts, t', Do(MainStep(Go)));
    acts, t' := Next(t0, acts, t', Do(MainStep(Go)));
  }

  lemma Listen(t0: Timed, before: seq<TimedAction>, t: Timed) returns (acts: seq<TimedAction>, t': Timed)
    requires Reached(t0, before, t) && t.s.notifiers == [Notifier(t.s.link.nonce, Created)]
    requires t.s.link.conn && t.s.link.notify && Live(t.s.link.mode)
    ensures Reached(t0, acts, t') && t' == t.(s := t.s.(notifiers := [Notifier(t.s.link.nonce, Listening)]))
  {
    hide Reached;
    acts, t' := Next(t0, before, t, Do(NotifierStep(0, Go)));
    assert t'.s.notifiers == [Notifier(t.s.link.nonce, Listening)];
  }

  /** The battery sends a frame and it is queued. */
  lemma Receive(t0: Timed, before: seq<TimedAction>, t: Timed, frame: Frame, opcode: bv8)
    returns (acts: seq<TimedAction>, t': Timed)
    requires Reached(t0, before, t) && t.s.notifiers == [Notifier(t.s.link.nonce, Listening)]
    requires t.s.link.conn && t.s.link.notify && Live(t.s.link.mode)
    requires Extract(frame).Carries? && Extract(frame).opcode == opcode && Queueable(frame, opcode)
    requires opcode as int !in t.s.queues
    ensures Reached(t0, acts, t')
    ensures t' == t.(s := t.s.(queues := t.s.queues[opcode as int := [Item(frame, |t.s.log|)]],
                               log := t.s.log + [Arrived(opcode as int, frame, t.s.link.nonce)]))
  {
    hide Reached, Extract, Queueable;
    acts, t' := Next(t0, before, t, Do(NotifierStep(0, Hear(frame))));
    assert t'.s.notifiers == t.s.notifiers;
    var item := Item(frame, |t.s.log|);
    assert Contents(t.s.queues, opcode as int) + [item] == [item];
  }

  /** The priming task takes the lock and writes its burst. */
  lemma PrimeWrites(t0: Timed, before: seq<TimedAction>, t: Timed) returns (acts: seq<TimedAction>, t': Timed)
    requires Reached(t0, before, t) && t.s.main.PrimeSleep? && t.wake == t.now + 80
    requires t.s.lock == None && t.s.link.write
    ensures Reached(t0, acts, t') && t'.due == t.due && t'.primeDue == t'.now + PRIME_MS
    ensures t'.s == t.s.(main := PrimeWaiting(t.s.main.a), lock := Some(Main))
  {
    hide Reached;
    acts, t' := Next(t0, before, t, Pass(80));
    acts, t' := Next(t0, acts, t', Do(MainStep(Go)));
    acts, t' := Next(t0, acts, t', Do(MainStep(Go)));
    acts, t' := Next(t0, acts, t', Do(MainStep(Go)));
    acts, t' := Next(t0, acts, t', Do(MainStep(Go)));
  }

  /** It reads the runtime frame that is queued. */
  lemma PrimeReads(t0: Timed, before: seq<TimedAction>, t: Timed, item: Item)
    returns (acts: seq<TimedAction>, t': Timed)
    requires Reached(t0, before, t) && t.s.main.PrimeWaiting? && t.now < t.primeDue
    requires t.s.queues == map[RUNTIME_KEY := [item]] && GoodRuntime(item.frame)
    ensures Reached(t0, acts, t') && t'.due == t.due && t'.now == t.now
    ensures t'.s == t.s.(main := Holding, lock := None, link := t.s.link.(mode := Ready), queues := map[],
                         log := t.s.log + [Took(Main, RUNTIME_KEY, item)])
  {
    hide Reached, GoodRuntime;
    acts, t' := Next(t0, before, t, Do(MainStep(Go)));
  }

  /** A caller takes the lock, empties the queue, writes, and waits. */
  lemma Send(t0: Timed, before: seq<TimedAction>, t: Timed) returns (acts: seq<TimedAction>, t': Timed)
    requires Reached(t0, before, t) && t.s.lock == None && t.s.queues == map[]
    requires |t.due| == |t.s.callers| > 0 && t.s.callers[0] == Idle
    requires t.s.link.mode == Ready && t.s.link.write && t.s.link.notify
    ensures Reached(t0, acts, t') && t'.now == t.now && t'.due == t.due[0 := t.now + WAIT_MS]
    ensures t'.s == t.s.(lock := Some(Caller(0)), callers := t.s.callers[0 := Waiting(TWO, |t.s.log|, [])],
                         log := t.s.log + [Emptied(NUMBER, 0, TWO)] + [Wrote(0, Build(OPCODE, []).value)])
  {
    hide Reached, Build;
    FramesPass();
    acts, t' := Next(t0, before, t, Do(CallerStep(0, Ask(TWO))));
    acts, t' := Next(t0, acts, t', Do(CallerStep(0, Go)));
    acts, t' := Next(t0, acts, t', Do(CallerStep(0, Go)));
    acts, t' := Next(t0, acts, t', Do(CallerStep(0, Go)));
    assert t'.s.callers == t.s.callers[0 := Waiting(TWO, |t.s.log|, [])];
  }

  /** The caller takes its first frame and waits on. */
  lemma TakeFirst(t0: Timed, before: seq<TimedAction>, t: Timed, since: nat, item: Item)
    returns (acts: seq<TimedAction>, t': Timed)
    requires Reached(t0, before, t) && |t.due| == |t.s.callers| > 0 && t.now < t.due[0]
    requires t.s.callers[0] == Waiting(TWO, since, []) && t.s.queues == map[NUMBER := [item]]
    ensures Reached(t0, acts, t') && t'.now == t.now && t'.due == t.due[0 := t.now + WAIT_MS]
    ensures t'.s == t.s.(queues := map[], callers := t.s.callers[0 := Waiting(TWO, since, [item])],
                         log := t.s.log + [Took(Caller(0), NUMBER, item)])
  {
    hide Reached;
    FramesPass();
    var none: seq<Item> := [];
    assert none + [item] == [item];
    acts, t' := Next(t0, before, t, Do(CallerStep(0, Go)));
    assert t'.s.callers == t.s.callers[0 := Waiting(TWO, since, [item])];
  }

  /** Connected, primed and ready. */
  lemma GetReady(callers: nat) returns (acts: seq<TimedAction>, t: Timed)
    requires callers >= 1
    ensures Reached(TimedStart(callers), acts, t)
    ensures |t.due| == |t.s.callers| == callers && t.s.callers[0] == Idle && t.s.lock == None
    ensures t.s.main == Holding && t.s.link == Link(Ready, true, true, true, 1, Some(0))
    ensures t.s.notifiers == [Notifier(1, Listening)] && t.s.queues == map[]
    ensures t.s.log == [Cleared, Arrived(RUNTIME_KEY, Runtime(), 1), Took(Main, RUNTIME_KEY, Item(Runtime(), 1))]
  {
    hide Reached, Queueable, Extract;
    var t0 := TimedStart(callers);
    FramesPass();
    StartReached(t0);
    acts, t := Connect(t0, [], t0);
    acts, t := Listen(t0, acts, t);
    acts, t := Receive(t0, acts, t, Runtime(), RUNTIME);
    acts, t := PrimeWrites(t0, acts, t);
    acts, t := PrimeReads(t0, acts, t, Item(Runtime(), 1));
  }

  /** One frame of two taken and the second queued. */
  lemma SecondQueued(callers: nat) returns (acts: seq<TimedAction>, t: Timed)
    requires callers >= 1
    ensures Reached(TimedStart(callers), acts, t)
    ensures |t.due| == |t.s.callers| == callers && t.s.main == Holding && t.s.link.conn && t.now < t.due[0]
    ensures t.s.link.task == Some(0) && |t.s.notifiers| == 1 && t.s.callers[0] == Waiting(TWO, 3, [Item(SHORT, 5)])
    ensures |t.s.log| == 8 && t.s.log[3] == Emptied(NUMBER, 0, TWO)
    ensures t.s.log[5] == t.s.log[7] == Arrived(NUMBER, SHORT, 1)
  {
    hide Reached, Queueable, Extract, TimedStart;
    var t0 := TimedStart(callers);
    FramesPass();
    acts, t := GetReady(callers);
    acts, t := Send(t0, acts, t);
    acts, t := Receive(t0, acts, t, SHORT, OPCODE);
    acts, t := TakeFirst(t0, acts, t, 3, Item(SHORT, 5));
    acts, t := Receive(t0, acts, t, SHORT, OPCODE);
  }

  /** The link drops and everything is torn down; the caller's next look ends its wait. */
  lemma DropAndReturn(t0: Timed, before: seq<TimedAction>, t: Timed, since: nat, item: Item)
    returns (acts: seq<TimedAction>, t': Timed)
    requires Reached(t0, before, t) && t.s.main == Holding && t.s.link.conn
    requires |t.due| == |t.s.callers| > 0 && t.now < t.due[0] && t.s.callers[0] == Waiting(TWO, since, [item])
    ensures Reached(t0, acts, t')
    ensures t'.s.log == t.s.log + [Cleared] + [Returned(0, TWO, since, [item])]
  {
    hide Reached;
    acts, t' := Next(t0, before, t, Do(MainStep(Go)));
    acts, t' := Next(t0, acts, t', Do(MainStep(Go)));
    acts, t' := Next(t0, acts, t', Do(CallerStep(0, Go)));
  }

  lemma StartReached(t0: Timed)
    ensures Reached(t0, [], t0)
  {
    NoTime(t0);
  }

  /** Two frames arrived for the command while it waited; the link drops, the queues are cleared, and the
      command returns the first one alone. */
  lemma FrameLostToTeardown(callers: nat) returns (acts: seq<TimedAction>)
    requires callers >= 1
    ensures TimedLegal(TimedStart(callers), acts)
    ensures var log := TimedRun(TimedStart(callers), acts).s.log;
            && |log| == 10 && log[3] == Emptied(NUMBER, 0, TWO)
            && log[5] == Arrived(NUMBER, SHORT, 1) && log[7] == Arrived(NUMBER, SHORT, 1)
            && log[8] == Cleared && log[9] == Returned(0, TWO, 3, [Item(SHORT, 5)])
  {
    hide TimedLegal, TimedRun, TimedStart;
    var t: Timed;
    acts, t := SecondQueued(callers);
    acts, t := DropAndReturn(TimedStart(callers), acts, t, 3, Item(SHORT, 5));
  }
}
