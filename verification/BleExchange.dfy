/** What the queues hold, over every interleaving: arrivals of the current session, in order; and that
being ready means the battery has answered in this session. */
module BleExchange {
  import opened Options
  import opened BleFrames
  import opened NotifyQueues
  import opened BleProtocol
  import opened BleSafety

  type Log = seq<Event>

  // ---------------------------------------------------------------------------------------------
  // Queued frames are arrivals of the current session

  /** Every entry of a queue is an arrival of this session under this opcode, in order of arrival. */
  ghost predicate Filed(log: Log, session: nat, key: int, queue: seq<Item>) {
    && (forall j :: 0 <= j < |queue| ==>
          queue[j].at < |log| && log[queue[j].at] == Arrived(key, queue[j].frame, session))
    && forall j, k :: 0 <= j < k < |queue| ==> queue[j].at < queue[k].at
  }

  ghost predicate QueueInv(queues: Queues<Item>, log: Log, session: nat) {
    forall key :: key in queues ==> Filed(log, session, key, queues[key])
  }

  lemma FiledLonger(log: Log, more: Log, session: nat, key: int, queue: seq<Item>)
    requires Filed(log, session, key, queue)
    ensures Filed(log + more, session, key, queue)
  {}

  lemma QueuesLonger(queues: Queues<Item>, log: Log, more: Log, session: nat)
    requires QueueInv(queues, log, session)
    ensures QueueInv(queues, log + more, session)
  {
    hide Filed;
    forall key | key in queues ensures Filed(log + more, session, key, queues[key]) {
      FiledLonger(log, more, session, key, queues[key]);
    }
  }

  lemma NoQueues(log: Log, session: nat)
    ensures QueueInv(map[], log, session)
  {}

  lemma QueuesRemoved(queues: Queues<Item>, log: Log, session: nat, key: int)
    requires QueueInv(queues, log, session)
    ensures QueueInv(queues - {key}, log, session)
  {
    hide Filed;
  }

  lemma QueuesDequeued(queues: Queues<Item>, log: Log, session: nat, key: int)
    requires QueueInv(queues, log, session)
    ensures QueueInv(Dequeue(queues, key), log, session)
    ensures Front(queues, key).Some? ==>
              var item := Front(queues, key).value;
              && item.at < |log| && log[item.at] == Arrived(key, item.frame, session)
              && item in Contents(queues, key)
              && forall x :: x in Contents(Dequeue(queues, key), key) ==> x in Contents(queues, key) && x.at > item.at
  {
    if Front(queues, key).Some? {
      assert Filed(log, session, key, queues[key]);
      forall k | k in Dequeue(queues, key) ensures Filed(log, session, k, Dequeue(queues, key)[k]) {
        assert Filed(log, session, k, queues[k]);
      }
    }
  }

  lemma FiledArrival(log: Log, session: nat, key: int, queue: seq<Item>, frame: Frame)
    requires Filed(log, session, key, queue)
    ensures var log', all := log + [Arrived(key, frame, session)], queue + [Item(frame, |log|)];
            Filed(log', session, key, all) && Filed(log', session, key, all[1..])
  {}

  lemma QueuesArrival(queues: Queues<Item>, log: Log, session: nat, key: int, frame: Frame)
    requires QueueInv(queues, log, session)
    ensures QueueInv(Enqueue(queues, key, Item(frame, |log|)), log + [Arrived(key, frame, session)], session)
    ensures forall k, x :: x in Contents(Enqueue(queues, key, Item(frame, |log|)), k) ==>
              x in Contents(queues, k) || x.at == |log|
  {
    hide Filed;
    var e := Arrived(key, frame, session);
    var queues' := Enqueue(queues, key, Item(frame, |log|));
    assert Filed(log, session, key, Contents(queues, key)) by { NothingFiled(log, session, key); }
    FiledArrival(log, session, key, Contents(queues, key), frame);
    QueuesLonger(queues, log, [e], session);
    forall k | k in queues' ensures Filed(log + [e], session, k, queues'[k]) {
      assert k != key ==> queues'[k] == queues[k];
    }
  }

  lemma NothingFiled(log: Log, session: nat, key: int)
    ensures Filed(log, session, key, [])
  {}

  // ---------------------------------------------------------------------------------------------
  // What a step does to queues and log

  ghost predicate Same(s: State, s': State) { s'.queues == s.queues && s'.log == s.log }

  ghost predicate Wiped(s: State, s': State) { s'.queues == map[] && s'.log == s.log + [Cleared] }

  lemma CancelledFrame(s: State)
    ensures var s' := Cancelled(s); s' == s.(link := s.link.(task := None), notifiers := s'.notifiers)
  {}

  lemma DisconnectWipes(s: State, waiting: MainPC, done: MainPC)
    ensures var s' := Disconnect(s, waiting, done);
            && s'.callers == s.callers && s'.lock == s.lock
            && s'.link.nonce == s.link.nonce && s'.link.mode == s.link.mode
            && (Same(s, s') || Wiped(s, s'))
  {
    hide Cancelled;
    CancelledFrame(s);
  }

  lemma FailedWipes(s: State, a: nat)
    ensures var s' := SetupFailed(s, a);
            && s'.callers == s.callers && s'.lock == s.lock
            && s'.link.nonce == s.link.nonce && s'.link.mode == Degraded
            && (Same(s, s') || Wiped(s, s'))
  {
    hide Disconnect;
    DisconnectWipes(s.(link := s.link.(mode := Degraded)), Failing(a), Retrying(a));
  }

  /** Outside the lock the main task at most clears every queue. */
  lemma MainOutside(s: State, input: Input)
    requires MainEnabled(s, input) && !s.main.PrimeWaiting?
    ensures var s' := MainMove(s, input);
            && s'.callers == s.callers && (Same(s, s') || Wiped(s, s'))
            && (Same(s, s') ==> s'.link.nonce == s.link.nonce)
  {
    hide PrimePoll, Disconnect, SetupFailed;
    match s.main
    case ConnectingPC(a) => FailedWipes(s, a);
    case NegotiatingPC(a) => FailedWipes(s, a);
    case SubscribingPC(a) => FailedWipes(s, a);
    case PrimeStart(a) => FailedWipes(Unlocked(s), a);
    case PrimeWriting(a) => FailedWipes(Unlocked(s), a);
    case Holding => DisconnectWipes(s.(link := s.link.(mode := Disconnected)), Dropping, Pausing);
    case _ =>
  }

  lemma PrimeEffect(s: State, input: Input)
    requires MainEnabled(s, input) && s.main.PrimeWaiting?
    ensures var s', p := MainMove(s, input), Polled(s, Main, RUNTIME_KEY);
            && s'.callers == s.callers && s'.link.nonce == s.link.nonce
            && (Same(s, s') || Wiped(s, s') || Same(p, s') || Wiped(p, s'))
  {
    hide Polled, Front, SetupFailed;
    var p := Polled(s, Main, RUNTIME_KEY);
    PolledFrame(s, Main, RUNTIME_KEY);
    FailedWipes(Unlocked(s), s.main.a);
    FailedWipes(Unlocked(p), s.main.a);
  }

  lemma PolledKeeps(s: State, who: Who, key: int, session: nat)
    requires QueueInv(s.queues, s.log, session)
    ensures var s' := Polled(s, who, key); QueueInv(s'.queues, s'.log, session)
  {
    hide QueueInv, Dequeue, Front;
    QueuesDequeued(s.queues, s.log, session, key);
    if Front(s.queues, key).Some? {
      QueuesLonger(Dequeue(s.queues, key), s.log, [Took(who, key, Front(s.queues, key).value)], session);
    }
  }

  lemma MainKeepsQueues(s: State, input: Input)
    requires QueueInv(s.queues, s.log, s.link.nonce) && MainEnabled(s, input)
    ensures var s' := MainMove(s, input); QueueInv(s'.queues, s'.log, s'.link.nonce)
  {
    hide QueueInv, MainMove, MainEnabled, Polled;
    var s' := MainMove(s, input);
    NoQueues(s'.log, s'.link.nonce);
    if s.main.PrimeWaiting? {
      PrimeEffect(s, input);
      PolledKeeps(s, Main, RUNTIME_KEY, s.link.nonce);
    } else {
      MainOutside(s, input);
    }
  }

  lemma FinishedKeepsQueues(s: State, i: nat, cmd: Command, since: nat, got: seq<Item>)
    requires QueueInv(s.queues, s.log, s.link.nonce) && i < |s.callers|
    ensures var s' := Finished(s, i, cmd, since, got); QueueInv(s'.queues, s'.log, s.link.nonce)
  {
    hide QueueInv;
    QueuesLonger(s.queues, s.log, [Returned(i, cmd, since, got)], s.link.nonce);
  }

  lemma CallerPollKeepsQueues(s: State, i: nat, input: Input, cmd: Command, since: nat, got: seq<Item>)
    requires QueueInv(s.queues, s.log, s.link.nonce) && i < |s.callers|
    ensures var s' := CallerPoll(s, i, input, cmd, since, got); QueueInv(s'.queues, s'.log, s.link.nonce)
  {
    hide QueueInv, Polled, Front;
    var key := cmd.opcode as int;
    var p := Polled(s, Caller(i), key);
    PolledKeeps(s, Caller(i), key, s.link.nonce);
    PolledFrame(s, Caller(i), key);
    FinishedKeepsQueues(s, i, cmd, since, got);
    if Front(s.queues, key).Some? { FinishedKeepsQueues(p, i, cmd, since, got + [Front(s.queues, key).value]); }
  }

  lemma CallerKeepsQueues(s: State, i: nat, input: Input)
    requires QueueInv(s.queues, s.log, s.link.nonce) && i < |s.callers|
    ensures var s' := CallerMove(s, i, input); QueueInv(s'.queues, s'.log, s'.link.nonce)
  {
    hide QueueInv, CallerPoll, Build;
    CallerKeepsLink(s, i, input);
    match s.callers[i]
    case Starting(cmd) =>
      QueuesRemoved(s.queues, s.log, s.link.nonce, cmd.opcode as int);
      QueuesLonger(s.queues - {cmd.opcode as int}, s.log, [Emptied(cmd.opcode as int, i, cmd)], s.link.nonce);
    case Writing(cmd, since, frame) =>
      QueuesLonger(s.queues, s.log, [Wrote(i, frame)], s.link.nonce);
      FinishedKeepsQueues(s.(log := s.log + [Wrote(i, frame)]), i, cmd, since, []);
    case Waiting(cmd, since, got) => CallerPollKeepsQueues(s, i, input, cmd, since, got);
    case _ =>
  }

  lemma NotifierKeepsQueues(s: State, k: nat, input: Input)
    requires QueueInv(s.queues, s.log, s.link.nonce) && LinkInv(s.link, s.main, s.notifiers)
    requires k < |s.notifiers| && NotifierEnabled(s, k, input)
    ensures var s' := NotifierMove(s, k, input); QueueInv(s'.queues, s'.log, s'.link.nonce)
  {
    hide QueueInv, Enqueue, Extract, Queueable;
    if input.Hear? && Extract(input.frame).Carries? {
      QueuesArrival(s.queues, s.log, s.link.nonce, Extract(input.frame).opcode as int, input.frame);
    }
  }

  lemma StepKeepsQueues(s: State, a: Action)
    requires QueueInv(s.queues, s.log, s.link.nonce) && LinkInv(s.link, s.main, s.notifiers) && Enabled(s, a)
    ensures var s' := Apply(s, a); QueueInv(s'.queues, s'.log, s'.link.nonce)
  {
    hide QueueInv, LinkInv, MainMove, CallerMove, NotifierMove, MainEnabled, CallerEnabled, NotifierEnabled;
    match a
    case MainStep(input) => MainKeepsQueues(s, input);
    case CallerStep(i, input) => CallerKeepsQueues(s, i, input);
    case NotifierStep(k, input) => NotifierKeepsQueues(s, k, input);
  }

  lemma {:induction false} QueuesHold(callers: nat, acts: seq<Action>)
    requires Legal(Start(callers), acts)
    ensures var s := Run(Start(callers), acts); QueueInv(s.queues, s.log, s.link.nonce)
    decreases |acts|
  {
    hide QueueInv, LinkInv, Apply, Enabled;
    if acts == [] {
      NoQueues([], 0);
    } else {
      QueuesHold(callers, acts[..|acts| - 1]);
      LinkHolds(callers, acts[..|acts| - 1]);
      StepKeepsQueues(Run(Start(callers), acts[..|acts| - 1]), acts[|acts| - 1]);
    }
  }

  /** No frame crosses a reconnect: whatever is queued arrived in the current session. */
  lemma SessionsIsolated(callers: nat, acts: seq<Action>, key: int, j: nat)
    requires Legal(Start(callers), acts)
    requires var queues := Run(Start(callers), acts).queues; key in queues && j < |queues[key]|
    ensures var s := Run(Start(callers), acts);
            var item := s.queues[key][j];
            item.at < |s.log| && s.log[item.at] == Arrived(key, item.frame, s.link.nonce)
  {
    hide Run;
    QueuesHold(callers, acts);
    var s := Run(Start(callers), acts);
    assert Filed(s.log, s.link.nonce, key, s.queues[key]);
  }

  // ---------------------------------------------------------------------------------------------
  // Ready means the battery has answered

  /** The priming task has read a full runtime frame that arrived in this session. */
  ghost predicate Primed(log: Log, session: nat) {
    exists n :: 0 <= n < |log| && PrimedBy(log, n, session)
  }

  ghost predicate PrimedBy(log: Log, n: nat, session: nat)
    requires n < |log|
  {
    && log[n].Took? && log[n].who == Main
    && log[n].item.at < n && log[log[n].item.at] == Arrived(3, log[n].item.frame, session)
    && |log[n].item.frame| >= 39 && log[n].item.frame[3] == 3
  }

  lemma PrimedLonger(log: Log, more: Log, session: nat)
    requires Primed(log, session)
    ensures Primed(log + more, session)
  {
    var n :| 0 <= n < |log| && PrimedBy(log, n, session);
    assert PrimedBy(log + more, n, session);
  }

  ghost predicate Extends(s: State, s': State) { s.log <= s'.log }

  lemma PolledExtends(s: State, who: Who, key: int)
    ensures Extends(s, Polled(s, who, key))
  {}

  lemma CallerPollExtends(s: State, i: nat, input: Input, cmd: Command, since: nat, got: seq<Item>)
    requires i < |s.callers|
    ensures Extends(s, CallerPoll(s, i, input, cmd, since, got))
  {
    hide Polled, Front;
    PolledExtends(s, Caller(i), cmd.opcode as int);
  }

  lemma CallerExtends(s: State, i: nat, input: Input)
    requires i < |s.callers|
    ensures Extends(s, CallerMove(s, i, input))
  {
    hide Build, CallerPoll;
    if s.callers[i].Waiting? {
      CallerPollExtends(s, i, input, s.callers[i].cmd, s.callers[i].since, s.callers[i].got);
    }
  }

  lemma MainOutsideReady(s: State, input: Input)
    requires MainEnabled(s, input) && !s.main.PrimeWaiting?
    ensures var s' := MainMove(s, input);
            s'.link.mode == Ready ==> s.link.mode == Ready && s'.link.nonce == s.link.nonce && Extends(s, s')
  {
    hide PrimePoll, Disconnect, SetupFailed;
    match s.main
    case ConnectingPC(a) => FailedWipes(s, a);
    case NegotiatingPC(a) => FailedWipes(s, a);
    case SubscribingPC(a) => FailedWipes(s, a);
    case PrimeStart(a) => FailedWipes(Unlocked(s), a);
    case PrimeWriting(a) => FailedWipes(Unlocked(s), a);
    case Holding => DisconnectWipes(s.(link := s.link.(mode := Disconnected)), Dropping, Pausing);
    case _ =>
  }

  lemma PrimePollReady(s: State, input: Input)
    requires MainEnabled(s, input) && s.main.PrimeWaiting? && MainMove(s, input).link.mode == Ready
    ensures var s', front := MainMove(s, input), Front(s.queues, RUNTIME_KEY);
            || (s' == s && s.link.mode == Ready)
            || (front.Some? && GoodRuntime(front.value.frame) && s'.log == Polled(s, Main, RUNTIME_KEY).log
                && s'.link.nonce == s.link.nonce)
  {
    hide Front, Polled;
    PolledFrame(s, Main, RUNTIME_KEY);
  }

  lemma PrimeReady(s: State, input: Input)
    requires QueueInv(s.queues, s.log, s.link.nonce) && (s.link.mode == Ready ==> Primed(s.log, s.link.nonce))
    requires MainEnabled(s, input) && s.main.PrimeWaiting? && MainMove(s, input).link.mode == Ready
    ensures Primed(MainMove(s, input).log, MainMove(s, input).link.nonce)
  {
    hide MainMove, MainEnabled, Front, Dequeue, QueueInv, Primed;
    PrimePollReady(s, input);
    QueuesDequeued(s.queues, s.log, s.link.nonce, RUNTIME_KEY);
    var s', front := MainMove(s, input), Front(s.queues, RUNTIME_KEY);
    if front.Some? && GoodRuntime(front.value.frame) && s'.link.nonce == s.link.nonce
       && s'.log == s.log + [Took(Main, RUNTIME_KEY, front.value)]
    {
      assert PrimedBy(s'.log, |s.log|, s.link.nonce);
      PrimedAt(s'.log, |s.log|, s.link.nonce);
    }
  }

  lemma PrimedAt(log: Log, n: nat, session: nat)
    requires n < |log| && PrimedBy(log, n, session)
    ensures Primed(log, session)
  {}

  lemma NotifierReady(s: State, k: nat, input: Input)
    requires k < |s.notifiers|
    ensures var s' := NotifierMove(s, k, input);
            Extends(s, s') && s'.link.nonce == s.link.nonce && (s'.link.mode == Ready ==> s.link.mode == Ready)
  {
    hide Extract, Queueable, Enqueue;
  }

  lemma StepKeepsPrimed(s: State, a: Action)
    requires QueueInv(s.queues, s.log, s.link.nonce) && Enabled(s, a)
    requires s.link.mode == Ready ==> Primed(s.log, s.link.nonce)
    ensures var s' := Apply(s, a); s'.link.mode == Ready ==> Primed(s'.log, s'.link.nonce)
  {
    hide QueueInv, Primed, MainMove, CallerMove, NotifierMove, MainEnabled, CallerEnabled, NotifierEnabled;
    var s' := Apply(s, a);
    match a {
      case MainStep(input) =>
        if !s.main.PrimeWaiting? {
          MainOutsideReady(s, input);
        } else if s'.link.mode == Ready {
          PrimeReady(s, input);
        }
      case CallerStep(i, input) =>
        CallerKeepsLink(s, i, input);
        CallerExtends(s, i, input);
      case NotifierStep(k, input) => NotifierReady(s, k, input);
    }
    if s.link.mode == Ready && Extends(s, s') {
      assert s'.log == s.log + s'.log[|s.log|..];
      PrimedLonger(s.log, s'.log[|s.log|..], s.link.nonce);
    }
  }

  /** In state "ready" the priming has read a runtime frame of at least 39 bytes that the battery sent
      in the current session. */
  lemma {:induction false} ReadyIsPrimed(callers: nat, acts: seq<Action>)
    requires Legal(Start(callers), acts)
    ensures var s := Run(Start(callers), acts); s.link.mode == Ready ==> Primed(s.log, s.link.nonce)
    decreases |acts|
  {
    hide QueueInv, Primed, Apply, Enabled;
    if acts != [] {
      ReadyIsPrimed(callers, acts[..|acts| - 1]);
      QueuesHold(callers, acts[..|acts| - 1]);
      StepKeepsPrimed(Run(Start(callers), acts[..|acts| - 1]), acts[|acts| - 1]);
    }
  }
}
