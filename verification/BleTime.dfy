/** The Bluetooth tasks with their clock: how long ble_loop sleeps, and until when a wait may look.

BleProtocol lets any enabled task move at any time.  Here a step is taken at a clock reading, in
milliseconds: a sleep lasts at least as long as the source says, and _wait_for_opcode looks only
before its deadline.  Every run kept to the clock is a run of BleProtocol, so what holds of all its runs
holds of these.  What the clock adds: a result never spans two sessions, because a wait ends before
ble_loop, having torn a link down, wakes up to make a new one. */
module BleTime {
  import opened Options
  import opened BleFrames
  import opened NotifyQueues
  import opened BleProtocol
  import opened BleSafety
  import opened BleExchange
  import opened BleResponses
  import opened BleReplay

  /** timeout_ms of the waits of send_command and send_command_multi, and of the priming. */
  const WAIT_MS: nat := 3000
  const PRIME_MS: nat := 2500

  /** `wake` is when ble_loop's current sleep ends, `due` each caller's deadline, `primeDue` the priming's. */
  datatype Timed = Timed(s: State, now: nat, wake: nat, due: seq<nat>, primeDue: nat)

  datatype TimedAction = Pass(ms: nat) | Do(a: Action)

  function NoDeadlines(n: nat): (due: seq<nat>)
    ensures |due| == n
  {
    seq(n, _ => 0)
  }

  function TimedStart(callers: nat): Timed { Timed(Start(callers), 0, 0, NoDeadlines(callers), 0) }

  /** The sleep ble_loop begins on arriving at `to`: after a scan that failed or found nothing, after a
      failed setup or the last one, after a lost link, after connecting, before priming. */
  function Sleep(from: MainPC, input: Input, to: MainPC): nat {
    match to
    case Pausing =>
      if from.ScanningPC? then if input.Expire? then 10000 else 5000 else if from.Retrying? then 4000 else 3000
    case Retrying(a) => 1000 * (1 + a)
    case Settling(_) => 250
    case PrimeSleep(_) => 80
    case _ => 0
  }

  predicate Sleeping(pc: MainPC) { pc.Pausing? || pc.Retrying? || pc.Settling? || pc.PrimeSleep? }

  predicate OnTime(t: Timed, a: Action)
    requires Enabled(t.s, a)
  {
    match a
    case MainStep(input) =>
      && (Sleeping(t.s.main) ==> t.wake <= t.now)
      && (t.s.main.PrimeWaiting? ==> if input.Go? then t.now < t.primeDue else t.primeDue <= t.now)
    case CallerStep(i, input) =>
      t.s.callers[i].Waiting? ==>
        i < |t.due| && (input.Go? ==> t.now < t.due[i]) && (input.Expire? ==> t.due[i] <= t.now)
    case NotifierStep(_, _) => true
  }

  predicate TimedEnabled(t: Timed, a: TimedAction) {
    match a
    case Pass(_) => true
    case Do(act) => Enabled(t.s, act) && OnTime(t, act)
  }

  /** A caller has begun a new wait: its first, or the one after a frame it took. */
  predicate NewWait(before: CallerPC, after: CallerPC) {
    after.Waiting? && (before.Waiting? ==> |before.got| < |after.got|)
  }

  function DueAfter(t: Timed, i: nat, s': State): seq<nat>
    requires i < |t.s.callers| && i < |s'.callers|
  {
    if i < |t.due| && NewWait(t.s.callers[i], s'.callers[i]) then t.due[i := t.now + WAIT_MS] else t.due
  }

  function TimedApply(t: Timed, a: TimedAction): Timed
    requires TimedEnabled(t, a)
  {
    match a
    case Pass(ms) => t.(now := t.now + ms)
    case Do(MainStep(input)) =>
      var s' := MainMove(t.s, input);
      t.(s := s',
         wake := if s'.main != t.s.main then t.now + Sleep(t.s.main, input, s'.main) else t.wake,
         primeDue := if s'.main.PrimeWaiting? && !t.s.main.PrimeWaiting? then t.now + PRIME_MS else t.primeDue)
    case Do(CallerStep(i, input)) =>
      var s' := CallerMove(t.s, i, input);
      t.(s := s', due := if i < |s'.callers| then DueAfter(t, i, s') else t.due)
    case Do(NotifierStep(k, input)) => t.(s := NotifierMove(t.s, k, input))
  }

  predicate TimedLegal(t: Timed, acts: seq<TimedAction>)
    decreases |acts|, 0
  {
    acts == [] ||
    (TimedLegal(t, acts[..|acts| - 1]) && TimedEnabled(TimedRun(t, acts[..|acts| - 1]), acts[|acts| - 1]))
  }

  function TimedRun(t: Timed, acts: seq<TimedAction>): Timed
    requires TimedLegal(t, acts)
    decreases |acts|, 1
  {
    if acts == [] then t else TimedApply(TimedRun(t, acts[..|acts| - 1]), acts[|acts| - 1])
  }

  lemma NoTime(t: Timed)
    ensures TimedLegal(t, []) && TimedRun(t, []) == t
  {}

  /** One more step of a run under construction. */
  lemma TimedThen(t0: Timed, acts: seq<TimedAction>, t: Timed, a: TimedAction)
    returns (more: seq<TimedAction>, t': Timed)
    requires TimedLegal(t0, acts) && TimedRun(t0, acts) == t && TimedEnabled(t, a)
    ensures more == acts + [a] && t' == TimedApply(t, a)
    ensures TimedLegal(t0, more) && TimedRun(t0, more) == t'
  {
    more, t' := acts + [a], TimedApply(t, a);
    assert more[..|acts|] == acts;
  }

  // ---------------------------------------------------------------------------------------------
  // Runs kept to the clock are runs of BleProtocol

  lemma TimedIsStep(t: Timed, a: TimedAction)
    requires TimedEnabled(t, a)
    ensures TimedApply(t, a).s == if a.Pass? then t.s else Apply(t.s, a.a)
  {
    hide MainMove, CallerMove, NotifierMove, MainEnabled, CallerEnabled, NotifierEnabled;
  }

  /** Leaving out the passing of time, a run kept to the clock is a run of BleProtocol. */
  lemma {:induction false} TimedIsRun(callers: nat, acts: seq<TimedAction>) returns (untimed: seq<Action>)
    requires TimedLegal(TimedStart(callers), acts)
    ensures Legal(Start(callers), untimed)
    ensures Run(Start(callers), untimed) == TimedRun(TimedStart(callers), acts).s
    decreases |acts|
  {
    hide Legal, Run, TimedApply, Apply, Enabled, OnTime;
    if acts == [] {
      NoSteps(Start(callers));
      untimed := [];
    } else {
      var before, a := acts[..|acts| - 1], acts[|acts| - 1];
      var t := TimedRun(TimedStart(callers), before);
      untimed := TimedIsRun(callers, before);
      TimedIsStep(t, a);
      if a.Do? {
        var s: State;
        untimed, s := Then(Start(callers), untimed, t.s, a.a);
      }
    }
  }

  // ---------------------------------------------------------------------------------------------
  // Sessions and deadlines

  ghost predicate AllFrom(log: Log, items: seq<Item>, session: nat) {
    forall j :: 0 <= j < |items| ==>
      items[j].at < |log| && log[items[j].at].Arrived? && log[items[j].at].session == session
  }

  /** The items, if any, all arrived in one session. */
  ghost predicate Uniform(log: Log, items: seq<Item>) { exists session :: AllFrom(log, items, session) }

  ghost predicate ReturnsUniform(log: Log) {
    forall n :: 0 <= n < |log| && log[n].Returned? ==> Uniform(log, log[n].items)
  }

  /** With a caller holding the lock and frames in its queue, ble_loop is here. */
  predicate Steady(pc: MainPC) { pc.PrimeSleep? || pc.PrimeLocking? || pc.Holding? || pc.Dropping? }

  /** No new session can be set up before `due`. */
  predicate Sure(main: MainPC, wake: nat, due: nat) { Steady(main) || (main.Pausing? && due <= wake) }

  ghost predicate WaitInv(t: Timed, i: nat, key: int, got: seq<Item>)
    requires i < |t.due|
  {
    && t.due[i] <= t.now + WAIT_MS
    && (Contents(t.s.queues, key) != [] ==> Steady(t.s.main))
    && Uniform(t.s.log, got)
    && (got != [] && t.now < t.due[i] ==> AllFrom(t.s.log, got, t.s.link.nonce) && Sure(t.s.main, t.wake, t.due[i]))
  }

  ghost predicate HolderInv(t: Timed, i: nat)
    requires i < |t.s.callers| && i < |t.due|
  {
    match t.s.callers[i]
    case Writing(cmd, _, _) => Contents(t.s.queues, Key(cmd)) != [] ==> Steady(t.s.main)
    case Waiting(cmd, _, got) => WaitInv(t, i, Key(cmd), got)
    case _ => true
  }

  ghost predicate TimeInv(t: Timed) {
    && |t.due| == |t.s.callers|
    && (forall i :: 0 <= i < |t.due| && t.s.lock == Some(Caller(i)) ==> HolderInv(t, i))
    && ReturnsUniform(t.s.log)
  }

  lemma UniformLonger(log: Log, more: Log, items: seq<Item>)
    requires Uniform(log, items)
    ensures Uniform(log + more, items)
  {
    var session :| AllFrom(log, items, session);
    assert AllFrom(log + more, items, session);
  }

  lemma ReturnsUniformSnoc(log: Log, e: Event)
    requires ReturnsUniform(log) && (e.Returned? ==> Uniform(log, e.items))
    ensures ReturnsUniform(log + [e])
  {
    hide Uniform;
    forall n | 0 <= n < |log + [e]| && (log + [e])[n].Returned? ensures Uniform(log + [e], (log + [e])[n].items) {
      if n < |log| {
        UniformLonger(log, [e], log[n].items);
      } else {
        UniformLonger(log, [e], e.items);
      }
    }
  }

  lemma NothingUniform(log: Log)
    ensures Uniform(log, []) && AllFrom(log, [], 0)
  {
    assert AllFrom(log, [], 0);
  }

  lemma OneMore(log: Log, got: seq<Item>, item: Item, session: nat)
    requires got == [] || AllFrom(log, got, session)
    requires item.at < |log| && log[item.at].Arrived? && log[item.at].session == session
    ensures AllFrom(log, got + [item], session) && Uniform(log, got + [item])
  {
    assert AllFrom(log, got + [item], session);
  }

  // ---------------------------------------------------------------------------------------------
  // Time passes, the battery sends

  lemma PassKeepsTime(t: Timed, ms: nat)
    requires TimeInv(t)
    ensures TimeInv(t.(now := t.now + ms))
  {
    hide Uniform, AllFrom, ReturnsUniform, Contents;
    var t' := t.(now := t.now + ms);
    forall i | 0 <= i < |t'.due| && t'.s.lock == Some(Caller(i)) ensures HolderInv(t', i) {
      assert HolderInv(t, i);
    }
  }

  lemma ListenerSteady(s: State, k: nat, i: nat)
    requires LockInv(s) && LinkInv(s.link, s.main, s.notifiers) && k < |s.notifiers| && s.notifiers[k].pc != Ended
    requires s.lock == Some(Caller(i))
    ensures Steady(s.main)
  {
    ListenerActive(s, k);
  }

  lemma NotifierKeepsTime(t: Timed, k: nat, input: Input)
    requires TimeInv(t) && AllInv(t.s) && k < |t.s.notifiers| && NotifierEnabled(t.s, k, input)
    ensures TimeInv(t.(s := NotifierMove(t.s, k, input)))
  {
    hide ReturnsUniform, LinkInv, LockInv, QueueInv, TalkInv, NotifierMove, Authentic, Enqueue, Uniform;
    var s, s' := t.s, NotifierMove(t.s, k, input);
    var t' := t.(s := s');
    NotifierFrame(s, k, input);
    NotifierReady(s, k, input);
    NotifierEffect(s, k, input);
    if !Same(s, s') {
      var key, frame :| Received(s, s', key, frame);
      ReturnsUniformSnoc(s.log, Arrived(key, frame, s.link.nonce));
    }
    forall i | 0 <= i < |t'.due| && t'.s.lock == Some(Caller(i)) ensures HolderInv(t', i) {
      assert HolderInv(t, i);
      ListenerSteady(s, k, i);
      if s.callers[i].Waiting? { UniformLonger(s.log, s'.log[|s.log|..], s.callers[i].got); }
      assert s'.log == s.log + s'.log[|s.log|..];
    }
  }

  // ---------------------------------------------------------------------------------------------
  // ble_loop moves

  /** While a caller holds the lock ble_loop goes from tearing down to its sleep, and nowhere else. */
  lemma MainPath(s: State, input: Input)
    requires MainEnabled(s, input) && !MainInside(s.main) && s.lock.Some?
    requires LinkInv(s.link, s.main, s.notifiers)
    ensures var s' := MainMove(s, input);
            && (Steady(s.main) ==>
                  || (Same(s, s') && Steady(s'.main) && s'.link.nonce == s.link.nonce)
                  || (Wiped(s, s') && s'.main.Pausing? && s'.main != s.main && s'.link.nonce == s.link.nonce))
            && s'.callers == s.callers && (Same(s, s') || Wiped(s, s'))
  {
    hide PrimePoll, Installed, SetupFailed;
    MainOutside(s, input);
  }

  lemma MainKeepsTime(t: Timed, input: Input)
    requires TimeInv(t) && AllInv(t.s) && TimedEnabled(t, Do(MainStep(input)))
    ensures TimeInv(TimedApply(t, Do(MainStep(input))))
  {
    hide ReturnsUniform, LinkInv, QueueInv, TalkInv, MainMove, MainEnabled, Uniform, Front;
    var s, s' := t.s, MainMove(t.s, input);
    var t' := TimedApply(t, Do(MainStep(input)));
    MainKeepsReturnsUniform(s, input);
    MainLocks(s, input);
    MainKeepsCallers(s, input);
    forall i | 0 <= i < |t'.due| && t'.s.lock == Some(Caller(i)) ensures HolderInv(t', i) {
      assert HolderInv(t, i);
      assert !MainInside(s.main);
      MainPath(s, input);
      if s.callers[i].Waiting? {
        WaitThroughMain(t, t', i, Key(s.callers[i].cmd), s.callers[i].got);
      }
    }
  }

  /** A wait through a step of ble_loop. */
  lemma WaitThroughMain(t: Timed, t': Timed, i: nat, key: int, got: seq<Item>)
    requires i < |t.due| && t'.due == t.due && t'.now == t.now && WaitInv(t, i, key, got)
    requires Same(t.s, t'.s) || Wiped(t.s, t'.s)
    requires Steady(t.s.main) ==> t'.s.link.nonce == t.s.link.nonce
    requires Steady(t.s.main) && Same(t.s, t'.s) ==> Steady(t'.s.main)
    requires Steady(t.s.main) && Wiped(t.s, t'.s) ==> t'.s.main.Pausing? && t'.wake == t.now + WAIT_MS
    requires t.s.main.Pausing? ==> t.wake <= t.now
    ensures WaitInv(t', i, key, got)
  {
    hide Uniform;
    if Wiped(t.s, t'.s) { UniformLonger(t.s.log, [Cleared], got); }
  }

  lemma MainKeepsCallers(s: State, input: Input)
    requires MainEnabled(s, input)
    ensures MainMove(s, input).callers == s.callers
  {
    hide MainMove, MainEnabled, Polled;
    if s.main.PrimeWaiting? { PrimeEffect(s, input); } else { MainOutside(s, input); }
  }

  lemma MainKeepsReturnsUniform(s: State, input: Input)
    requires ReturnsUniform(s.log) && MainEnabled(s, input)
    ensures ReturnsUniform(MainMove(s, input).log)
  {
    hide ReturnsUniform, MainMove, MainEnabled, Front;
    ReturnsUniformSnoc(s.log, Cleared);
    if s.main.PrimeWaiting? {
      PrimeEffect(s, input);
      var p := Polled(s, Main, RUNTIME_KEY);
      if Front(s.queues, RUNTIME_KEY).Some? {
        ReturnsUniformSnoc(s.log, Took(Main, RUNTIME_KEY, Front(s.queues, RUNTIME_KEY).value));
      }
      ReturnsUniformSnoc(p.log, Cleared);
    } else {
      MainOutside(s, input);
    }
  }

  // ---------------------------------------------------------------------------------------------
  // A caller moves

  /** A caller without the lock changes neither queues nor log. */
  lemma Outsider(s: State, j: nat, input: Input)
    requires j < |s.callers| && CallerEnabled(s, j, input) && !CallerInside(s.callers[j])
    ensures var s' := CallerMove(s, j, input);
            && Same(s, s') && |s'.callers| == |s.callers|
            && (forall i :: 0 <= i < |s.callers| && i != j ==> s'.callers[i] == s.callers[i])
            && (s'.lock == s.lock || (s'.lock == Some(Caller(j)) && s'.callers[j].Starting?))
            && !s'.callers[j].Waiting? && !s'.callers[j].Writing?
  {}

  lemma FinishedKeepsTime(t: Timed, i: nat, cmd: Command, since: nat, got: seq<Item>, due: seq<nat>)
    requires ReturnsUniform(t.s.log) && i < |t.s.callers| && |due| == |t.s.callers| && Uniform(t.s.log, got)
    ensures TimeInv(t.(s := Finished(t.s, i, cmd, since, got), due := due))
  {
    hide ReturnsUniform, Uniform;
    ReturnsUniformSnoc(t.s.log, Returned(i, cmd, since, got));
  }

  /** The step of a caller that leaves its block without a result. */
  lemma LeavingKeepsTime(t: Timed, i: nat)
    requires ReturnsUniform(t.s.log) && i < |t.s.callers| && |t.due| == |t.s.callers|
    ensures TimeInv(t.(s := Unlocked(At(t.s, i, Idle))))
  {
    hide ReturnsUniform;
  }

  lemma StartKeepsTime(t: Timed, i: nat, input: Input, cmd: Command)
    requires TimeInv(t) && i < |t.s.callers| && t.s.callers[i] == Starting(cmd) && t.s.lock == Some(Caller(i))
    ensures TimeInv(t.(s := CallerMove(t.s, i, input)))
  {
    hide ReturnsUniform, Build;
    ReturnsUniformSnoc(t.s.log, Emptied(Key(cmd), i, cmd));
  }

  lemma WriteKeepsTime(t: Timed, i: nat, input: Input)
    requires TimeInv(t) && i < |t.s.callers| && t.s.callers[i].Writing? && t.s.lock == Some(Caller(i))
    ensures var s' := CallerMove(t.s, i, input); i < |s'.callers| && TimeInv(t.(s := s', due := DueAfter(t, i, s')))
  {
    hide ReturnsUniform, Uniform, Finished;
    assert HolderInv(t, i);
    if input.Fail? {
      LeavingKeepsTime(t, i);
    } else {
      var cmd, since, e := t.s.callers[i].cmd, t.s.callers[i].since, Wrote(i, t.s.callers[i].frame);
      var wrote := t.s.(log := t.s.log + [e]);
      ReturnsUniformSnoc(t.s.log, e);
      NothingUniform(wrote.log);
      if Wanted(cmd) <= 0 {
        FinishedKeepsTime(t.(s := wrote), i, cmd, since, [], t.due);
        FinishedIdle(wrote, i, cmd, since, []);
      }
    }
  }

  lemma FinishedIdle(s: State, i: nat, cmd: Command, since: nat, got: seq<Item>)
    requires i < |s.callers|
    ensures var s' := Finished(s, i, cmd, since, got); |s'.callers| == |s.callers| && s'.callers[i] == Idle
  {}

  /** A look that finds a frame: it is of the current session, as all taken before it are. */
  lemma TakeKeepsTime(t: Timed, i: nat, cmd: Command, since: nat, got: seq<Item>, item: Item)
    requires TimeInv(t) && AllInv(t.s) && i < |t.s.callers| && t.s.callers[i] == Waiting(cmd, since, got)
    requires t.s.lock == Some(Caller(i)) && t.now < t.due[i] && Front(t.s.queues, Key(cmd)) == Some(item)
    ensures var p := Polled(t.s, Caller(i), Key(cmd));
            && ReturnsUniform(p.log) && Uniform(p.log, got + [item])
            && TimeInv(t.(s := At(p, i, Waiting(cmd, since, got + [item])), due := t.due[i := t.now + WAIT_MS]))
  {
    hide ReturnsUniform, LinkInv, LockInv, QueueInv, TalkInv, Dequeue, AllFrom, Uniform;
    assert HolderInv(t, i);
    assert Contents(t.s.queues, Key(cmd)) != [];
    QueuesDequeued(t.s.queues, t.s.log, t.s.link.nonce, Key(cmd));
    OneMore(t.s.log, got, item, t.s.link.nonce);
    var e := Took(Caller(i), Key(cmd), item);
    ReturnsUniformSnoc(t.s.log, e);
    UniformLonger(t.s.log, [e], got + [item]);
    AllFromLonger(t.s.log, [e], got + [item], t.s.link.nonce);
    var p := Polled(t.s, Caller(i), Key(cmd));
    var t' := t.(s := At(p, i, Waiting(cmd, since, got + [item])), due := t.due[i := t.now + WAIT_MS]);
    assert WaitInv(t', i, Key(cmd), got + [item]);
  }

  lemma AllFromLonger(log: Log, more: Log, items: seq<Item>, session: nat)
    requires AllFrom(log, items, session)
    ensures AllFrom(log + more, items, session)
  {}

  lemma LookKeepsTime(t: Timed, i: nat, input: Input, cmd: Command, since: nat, got: seq<Item>)
    requires TimeInv(t) && AllInv(t.s) && i < |t.s.callers| && t.s.callers[i] == Waiting(cmd, since, got)
    requires t.s.lock == Some(Caller(i)) && CallerEnabled(t.s, i, input) && (input.Go? ==> t.now < t.due[i])
    ensures var s' := CallerPoll(t.s, i, input, cmd, since, got);
            i < |s'.callers| && TimeInv(t.(s := s', due := DueAfter(t, i, s')))
  {
    hide ReturnsUniform, LinkInv, LockInv, QueueInv, TalkInv, Uniform, Finished, Polled, Front, AllFrom;
    assert HolderInv(t, i);
    var s := t.s;
    FinishedKeepsTime(t, i, cmd, since, got, t.due);
    FinishedIdle(s, i, cmd, since, got);
    LeavingKeepsTime(t, i);
    var front := Front(s.queues, Key(cmd));
    if input.Go? && front.Some? {
      var p, all := Polled(s, Caller(i), Key(cmd)), got + [front.value];
      PolledFrame(s, Caller(i), Key(cmd));
      TakeKeepsTime(t, i, cmd, since, got, front.value);
      FinishedKeepsTime(t.(s := p), i, cmd, since, all, t.due);
      FinishedIdle(p, i, cmd, since, all);
    } else if input.Go? && Live(s.link.mode) {
      assert t.(s := s, due := t.due) == t;
    }
  }

  lemma CallerKeepsTime(t: Timed, j: nat, input: Input)
    requires TimeInv(t) && AllInv(t.s) && TimedEnabled(t, Do(CallerStep(j, input)))
    ensures TimeInv(TimedApply(t, Do(CallerStep(j, input))))
  {
    hide ReturnsUniform, LinkInv, QueueInv, TalkInv, Uniform, CallerPoll, CallerMove;
    var s := t.s;
    if CallerInside(s.callers[j]) {
      assert s.lock == Some(Caller(j));
      InsideKeepsTime(t, j, input);
    } else {
      Outsider(s, j, input);
      CallerKeepsLink(s, j, input);
      OutsiderKeepsTime(t, j, CallerMove(s, j, input));
    }
  }

  lemma OutsiderKeepsTime(t: Timed, j: nat, s': State)
    requires TimeInv(t) && j < |t.s.callers| && Same(t.s, s') && |s'.callers| == |t.s.callers|
    requires forall i :: 0 <= i < |t.s.callers| && i != j ==> s'.callers[i] == t.s.callers[i]
    requires s'.lock == t.s.lock || (s'.lock == Some(Caller(j)) && s'.callers[j].Starting?)
    requires !s'.callers[j].Waiting? && !s'.callers[j].Writing? && s'.link == t.s.link && s'.main == t.s.main
    ensures TimeInv(t.(s := s', due := DueAfter(t, j, s')))
  {
    hide ReturnsUniform, Uniform, AllFrom;
    var t' := t.(s := s', due := DueAfter(t, j, s'));
    assert t'.due == t.due;
    forall i | 0 <= i < |t'.due| && t'.s.lock == Some(Caller(i)) ensures HolderInv(t', i) {
      assert i != j ==> HolderInv(t, i);
    }
  }

  lemma InsideKeepsTime(t: Timed, j: nat, input: Input)
    requires TimeInv(t) && AllInv(t.s) && TimedEnabled(t, Do(CallerStep(j, input)))
    requires CallerInside(t.s.callers[j]) && t.s.lock == Some(Caller(j))
    ensures var s' := CallerMove(t.s, j, input); j < |s'.callers| && TimeInv(t.(s := s', due := DueAfter(t, j, s')))
  {
    hide ReturnsUniform, LinkInv, LockInv, QueueInv, TalkInv, TimeInv, Uniform, CallerPoll, Build;
    match t.s.callers[j]
    case Starting(cmd) =>
      StartKeepsTime(t, j, input, cmd);
      StartsNoWait(t, j, input, cmd);
    case Writing(_, _, _) => WriteKeepsTime(t, j, input);
    case Waiting(cmd, since, got) => LookKeepsTime(t, j, input, cmd, since, got);
  }

  lemma StartsNoWait(t: Timed, j: nat, input: Input, cmd: Command)
    requires j < |t.s.callers| && t.s.callers[j] == Starting(cmd)
    ensures var s' := CallerMove(t.s, j, input);
            |s'.callers| == |t.s.callers| && DueAfter(t, j, s') == t.due
  {
    hide Build;
  }

  // ---------------------------------------------------------------------------------------------
  // The theorem

  lemma StepKeepsTime(t: Timed, a: TimedAction)
    requires TimeInv(t) && AllInv(t.s) && TimedEnabled(t, a)
    ensures TimeInv(TimedApply(t, a))
  {
    hide TimeInv, AllInv, MainMove, CallerMove, NotifierMove;
    match a
    case Pass(ms) => PassKeepsTime(t, ms);
    case Do(MainStep(input)) => MainKeepsTime(t, input);
    case Do(CallerStep(j, input)) => CallerKeepsTime(t, j, input);
    case Do(NotifierStep(k, input)) => NotifierKeepsTime(t, k, input);
  }

  lemma StartsOnTime(t: Timed)
    requires t.s.lock == None && t.s.log == [] && |t.due| == |t.s.callers|
    ensures TimeInv(t)
  {}

  lemma {:induction false} TimeHolds(callers: nat, acts: seq<TimedAction>)
    requires TimedLegal(TimedStart(callers), acts)
    ensures TimeInv(TimedRun(TimedStart(callers), acts))
    decreases |acts|
  {
    hide TimeInv, AllInv, TimedApply, TimedEnabled, Legal, Run;
    if acts == [] {
      StartsOnTime(TimedStart(callers));
    } else {
      var before := acts[..|acts| - 1];
      TimeHolds(callers, before);
      var untimed := TimedIsRun(callers, before);
      AllHolds(callers, untimed);
      StepKeepsTime(TimedRun(TimedStart(callers), before), acts[|acts| - 1]);
    }
  }

  /** Every result comes from one session, and nothing was cleared between the arrivals of its first and
      its last frame: no interleaving lets a wait outlast a reconnect. */
  lemma ResultInOneSession(callers: nat, acts: seq<TimedAction>, n: nat)
    requires TimedLegal(TimedStart(callers), acts)
    requires var log := TimedRun(TimedStart(callers), acts).s.log; n < |log| && log[n].Returned?
    ensures var log := TimedRun(TimedStart(callers), acts).s.log;
            var items := log[n].items;
            && items != [] && (forall j :: 0 <= j < |items| ==> items[j].at < n && log[items[j].at].Arrived?)
            && OneSession(log, items) && Clean(log, items[0].at, items[|items| - 1].at)
  {
    hide TimedRun, TimedLegal, TimedStart, Run, Legal, Start, Clean;
    TimeHolds(callers, acts);
    var untimed := TimedIsRun(callers, acts);
    OneSessionIffUncleared(callers, untimed, n);
    var log := TimedRun(TimedStart(callers), acts).s.log;
    assert Uniform(log, log[n].items);
  }
}
