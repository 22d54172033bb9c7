/** What send_command and send_command_multi return, over every interleaving. */
module BleResponses {
  import opened Options
  import opened BleFrames
  import opened NotifyQueues
  import opened BleProtocol
  import opened BleSafety
  import opened BleExchange

  function Key(cmd: Command): int { cmd.opcode as int }

  /** Every item read off a queue between two points of the log. */
  function Taken(log: Log, lo: nat, hi: nat): seq<Item>
    requires hi <= |log|
  {
    if hi <= lo then [] else Taken(log, lo, hi - 1) + if log[hi - 1].Took? then [log[hi - 1].item] else []
  }

  /** No command empties a queue in this event, and if one is read it is caller `i` reading its own.
      (The main task may still be clearing all queues at once.) */
  predicate Quiet(e: Event, i: nat, key: int) {
    !e.Emptied? && (e.Took? ==> e.who == Caller(i) && e.opcode == key)
  }

  predicate IsArrival(e: Event, key: int, frame: Frame) { e.Arrived? && e.opcode == key && e.frame == frame }

  ghost predicate Undisturbed(log: Log, i: nat, key: int, since: nat, upto: nat)
    requires upto <= |log|
  {
    forall m :: since < m < upto ==> Quiet(log[m], i, key)
  }

  ghost predicate Gathered(log: Log, key: int, since: nat, got: seq<Item>, upto: nat)
    requires upto <= |log|
  {
    && (forall j :: 0 <= j < |got| ==> since < got[j].at < upto && IsArrival(log[got[j].at], key, got[j].frame))
    && forall j, k :: 0 <= j < k < |got| ==> got[j].at < got[k].at
  }

  /** Between emptying its queue at `since` and `upto`, caller `i` alone read a queue, its own, no queue
      was emptied by a command, and it read exactly `got`: frames that arrived under its opcode after
      `since`, in the order they arrived. */
  ghost predicate Exchange(log: Log, i: nat, cmd: Command, since: nat, got: seq<Item>, upto: nat) {
    && since < upto <= |log| && log[since] == Emptied(Key(cmd), i, cmd)
    && Undisturbed(log, i, Key(cmd), since, upto)
    && Gathered(log, Key(cmd), since, got, upto)
    && Taken(log, since + 1, upto) == got
  }

  lemma {:induction false} TakenLonger(log: Log, more: Log, lo: nat, hi: nat)
    requires hi <= |log|
    ensures Taken(log + more, lo, hi) == Taken(log, lo, hi)
  {
    if hi > lo { TakenLonger(log, more, lo, hi - 1); }
  }

  lemma UndisturbedLonger(log: Log, more: Log, i: nat, key: int, since: nat, upto: nat)
    requires upto <= |log| && Undisturbed(log, i, key, since, upto)
    ensures Undisturbed(log + more, i, key, since, upto)
  {
    hide Quiet;
  }

  lemma UndisturbedSnoc(log: Log, e: Event, i: nat, key: int, since: nat)
    requires Undisturbed(log, i, key, since, |log|) && Quiet(e, i, key)
    ensures Undisturbed(log + [e], i, key, since, |log| + 1)
  {
    hide Quiet;
  }

  lemma GatheredLonger(log: Log, more: Log, key: int, since: nat, got: seq<Item>, upto: nat, upto': nat)
    requires upto <= |log| && Gathered(log, key, since, got, upto) && upto <= upto' <= |log + more|
    ensures Gathered(log + more, key, since, got, upto')
  {
    hide IsArrival;
  }

  lemma GatheredMore(log: Log, key: int, since: nat, got: seq<Item>, item: Item)
    requires Gathered(log, key, since, got, |log|)
    requires since < item.at < |log| && IsArrival(log[item.at], key, item.frame)
    requires got != [] ==> got[|got| - 1].at < item.at
    ensures Gathered(log, key, since, got + [item], |log|)
  {
    hide IsArrival;
  }

  lemma ExchangeLonger(log: Log, more: Log, i: nat, cmd: Command, since: nat, got: seq<Item>, upto: nat)
    requires Exchange(log, i, cmd, since, got, upto)
    ensures Exchange(log + more, i, cmd, since, got, upto)
  {
    hide Undisturbed, Gathered, Key, Taken;
    TakenLonger(log, more, since + 1, upto);
    UndisturbedLonger(log, more, i, Key(cmd), since, upto);
    GatheredLonger(log, more, Key(cmd), since, got, upto, upto);
  }

  lemma TakenSnoc(log: Log, e: Event, lo: nat)
    requires lo <= |log|
    ensures Taken(log + [e], lo, |log| + 1) == Taken(log, lo, |log|) + if e.Took? then [e.item] else []
  {
    TakenLonger(log, [e], lo, |log|);
  }

  lemma ExchangeQuiet(log: Log, e: Event, i: nat, cmd: Command, since: nat, got: seq<Item>)
    requires Exchange(log, i, cmd, since, got, |log|) && Quiet(e, i, Key(cmd)) && !e.Took?
    ensures Exchange(log + [e], i, cmd, since, got, |log| + 1)
  {
    hide Undisturbed, Gathered, Key, Taken;
    TakenSnoc(log, e, since + 1);
    UndisturbedSnoc(log, e, i, Key(cmd), since);
    GatheredLonger(log, [e], Key(cmd), since, got, |log|, |log| + 1);
  }

  lemma ExchangeTook(log: Log, i: nat, cmd: Command, since: nat, got: seq<Item>, item: Item)
    requires Exchange(log, i, cmd, since, got, |log|)
    requires since < item.at < |log| && IsArrival(log[item.at], Key(cmd), item.frame)
    requires got != [] ==> got[|got| - 1].at < item.at
    ensures Exchange(log + [Took(Caller(i), Key(cmd), item)], i, cmd, since, got + [item], |log| + 1)
  {
    hide Undisturbed, Gathered, Key, Taken;
    var e := Took(Caller(i), Key(cmd), item);
    TakenSnoc(log, e, since + 1);
    UndisturbedSnoc(log, e, i, Key(cmd), since);
    GatheredMore(log, Key(cmd), since, got, item);
    GatheredLonger(log, [e], Key(cmd), since, got + [item], |log|, |log| + 1);
  }

  lemma ExchangeBounds(log: Log, i: nat, cmd: Command, since: nat, got: seq<Item>)
    requires Exchange(log, i, cmd, since, got, |log|)
    ensures since < |log| && (got != [] ==> got[|got| - 1].at < |log|)
  {
    hide IsArrival, Quiet, Taken;
  }

  // ---------------------------------------------------------------------------------------------
  // The command holding the lock

  ghost predicate Open(queues: Queues<Item>, log: Log, i: nat, cmd: Command, since: nat, got: seq<Item>) {
    && Exchange(log, i, cmd, since, got, |log|)
    && forall x :: x in Contents(queues, Key(cmd)) ==> x.at > since && (got != [] ==> x.at > got[|got| - 1].at)
  }

  lemma OpenWiped(queues: Queues<Item>, log: Log, i: nat, cmd: Command, since: nat, got: seq<Item>)
    requires Open(queues, log, i, cmd, since, got)
    ensures Open(map[], log + [Cleared], i, cmd, since, got)
  {
    hide Exchange;
    ExchangeQuiet(log, Cleared, i, cmd, since, got);
  }

  lemma OpenArrival(queues: Queues<Item>, log: Log, session: nat, key: int, frame: Frame,
                    i: nat, cmd: Command, since: nat, got: seq<Item>)
    requires Open(queues, log, i, cmd, since, got) && QueueInv(queues, log, session)
    ensures Open(Enqueue(queues, key, Item(frame, |log|)), log + [Arrived(key, frame, session)], i, cmd, since, got)
  {
    hide Enqueue, QueueInv, Contents, Exchange, Key;
    QueuesArrival(queues, log, session, key, frame);
    ExchangeQuiet(log, Arrived(key, frame, session), i, cmd, since, got);
    ExchangeBounds(log, i, cmd, since, got);
  }

  lemma OpenTook(queues: Queues<Item>, log: Log, session: nat,
                 i: nat, cmd: Command, since: nat, got: seq<Item>, item: Item)
    requires Open(queues, log, i, cmd, since, got) && QueueInv(queues, log, session)
    requires Front(queues, Key(cmd)) == Some(item)
    ensures Open(Dequeue(queues, Key(cmd)), log + [Took(Caller(i), Key(cmd), item)], i, cmd, since, got + [item])
  {
    hide Exchange, Dequeue, Contents, QueueInv, Front;
    QueuesDequeued(queues, log, session, Key(cmd));
    ExchangeTook(log, i, cmd, since, got, item);
  }

  lemma OpenWrote(queues: Queues<Item>, log: Log, i: nat, cmd: Command, since: nat, frame: Frame)
    requires Open(queues, log, i, cmd, since, [])
    ensures Open(queues, log + [Wrote(i, frame)], i, cmd, since, [])
  {
    hide Exchange;
    ExchangeQuiet(log, Wrote(i, frame), i, cmd, since, []);
  }

  lemma OpenEmptied(queues: Queues<Item>, log: Log, i: nat, cmd: Command)
    ensures Open(queues - {Key(cmd)}, log + [Emptied(Key(cmd), i, cmd)], i, cmd, |log|, [])
  {}

  // ---------------------------------------------------------------------------------------------
  // What is returned

  ghost predicate Answered(log: Log, n: nat)
    requires n < |log|
  {
    log[n].Returned? ==>
      && Exchange(log, log[n].caller, log[n].cmd, log[n].since, log[n].items, n)
      && 1 <= |log[n].items| <= Wanted(log[n].cmd)
  }

  ghost predicate ReturnsInv(log: Log) { forall n :: 0 <= n < |log| ==> Answered(log, n) }

  lemma ReturnsLonger(log: Log, e: Event)
    requires ReturnsInv(log)
    requires e.Returned? ==> Exchange(log, e.caller, e.cmd, e.since, e.items, |log|) && 1 <= |e.items| <= Wanted(e.cmd)
    ensures ReturnsInv(log + [e])
  {
    hide Exchange;
    forall n | 0 <= n < |log + [e]| ensures Answered(log + [e], n) {
      if n < |log| {
        assert Answered(log, n);
        if log[n].Returned? {
          ExchangeLonger(log, [e], log[n].caller, log[n].cmd, log[n].since, log[n].items, n);
        }
      } else if e.Returned? {
        ExchangeLonger(log, [e], e.caller, e.cmd, e.since, e.items, n);
      }
    }
  }

  // ---------------------------------------------------------------------------------------------
  // Steps

  ghost predicate Progress(queues: Queues<Item>, log: Log, i: nat, pc: CallerPC) {
    match pc
    case Writing(cmd, since, _) => Open(queues, log, i, cmd, since, [])
    case Waiting(cmd, since, got) => Open(queues, log, i, cmd, since, got) && |got| < Wanted(cmd)
    case _ => true
  }

  /** The caller holding the lock is having its exchange, and past ones were as they should be. */
  ghost predicate TalkInv(s: State) {
    && (forall i :: 0 <= i < |s.callers| && s.lock == Some(Caller(i)) ==> Progress(s.queues, s.log, i, s.callers[i]))
    && ReturnsInv(s.log)
  }

  ghost predicate AllInv(s: State) {
    && LockInv(s) && LinkInv(s.link, s.main, s.notifiers) && QueueInv(s.queues, s.log, s.link.nonce) && TalkInv(s)
  }

  lemma PrimeUnlocks(s: State, input: Input)
    requires s.main.PrimeWaiting?
    ensures var lock := MainMove(s, input).lock; lock == None || lock == s.lock
  {
    hide Polled, Front, SetupFailed;
    PolledFrame(s, Main, RUNTIME_KEY);
    FailedWipes(Unlocked(s), s.main.a);
    FailedWipes(Unlocked(Polled(s, Main, RUNTIME_KEY)), s.main.a);
  }

  lemma MainLocks(s: State, input: Input)
    requires MainEnabled(s, input)
    ensures var lock := MainMove(s, input).lock; lock == s.lock || lock == None || lock == Some(Main)
  {
    hide PrimePoll, Disconnect, SetupFailed;
    match s.main
    case ConnectingPC(a) => FailedWipes(s, a);
    case NegotiatingPC(a) => FailedWipes(s, a);
    case SubscribingPC(a) => FailedWipes(s, a);
    case PrimeStart(a) => FailedWipes(Unlocked(s), a);
    case PrimeWriting(a) => FailedWipes(Unlocked(s), a);
    case PrimeWaiting(a) => PrimeUnlocks(s, input);
    case Holding => DisconnectWipes(s.(link := s.link.(mode := Disconnected)), Dropping, Pausing);
    case _ =>
  }

  lemma ReturnsSame(s: State, s': State)
    requires ReturnsInv(s.log) && (Same(s, s') || Wiped(s, s'))
    ensures ReturnsInv(s'.log)
  {
    hide ReturnsInv;
    ReturnsLonger(s.log, Cleared);
  }

  lemma MainKeepsReturns(s: State, input: Input)
    requires ReturnsInv(s.log) && MainEnabled(s, input)
    ensures ReturnsInv(MainMove(s, input).log)
  {
    hide ReturnsInv, MainMove, MainEnabled, Front;
    if s.main.PrimeWaiting? {
      PrimeEffect(s, input);
      var p := Polled(s, Main, RUNTIME_KEY);
      if Front(s.queues, RUNTIME_KEY).Some? {
        ReturnsLonger(s.log, Took(Main, RUNTIME_KEY, Front(s.queues, RUNTIME_KEY).value));
      }
      ReturnsSame(p, p);
      ReturnsLonger(p.log, Cleared);
      ReturnsLonger(s.log, Cleared);
    } else {
      MainOutside(s, input);
      ReturnsSame(s, MainMove(s, input));
    }
  }

  lemma MainKeepsTalk(s: State, input: Input)
    requires LockInv(s) && TalkInv(s) && MainEnabled(s, input)
    ensures TalkInv(MainMove(s, input))
  {
    hide ReturnsInv, MainMove, MainEnabled, Open;
    var s' := MainMove(s, input);
    MainKeepsReturns(s, input);
    MainLocks(s, input);
    forall i | 0 <= i < |s'.callers| && s'.lock == Some(Caller(i))
      ensures Progress(s'.queues, s'.log, i, s'.callers[i])
    {
      MainOutside(s, input);
      match s.callers[i]
      case Writing(cmd, since, _) => if Wiped(s, s') { OpenWiped(s.queues, s.log, i, cmd, since, []); }
      case Waiting(cmd, since, got) => if Wiped(s, s') { OpenWiped(s.queues, s.log, i, cmd, since, got); }
      case _ =>
    }
  }

  lemma NotifierEffect(s: State, k: nat, input: Input)
    requires LinkInv(s.link, s.main, s.notifiers) && k < |s.notifiers| && NotifierEnabled(s, k, input)
    ensures var s' := NotifierMove(s, k, input);
            Same(s, s') || exists key, frame :: Received(s, s', key, frame)
  {
    hide Enqueue, Queueable, LinkInv;
    if input.Hear? && Extract(input.frame).Carries? && Queueable(input.frame, Extract(input.frame).opcode) {
      assert s.notifiers[k].nonce == s.link.nonce by { ListenerIsCurrent(s, k); }
      assert Received(s, NotifierMove(s, k, input), Extract(input.frame).opcode as int, input.frame);
    }
  }

  lemma ListenerIsCurrent(s: State, k: nat)
    requires LinkInv(s.link, s.main, s.notifiers) && k < |s.notifiers| && s.notifiers[k].pc != Ended
    ensures s.notifiers[k].nonce == s.link.nonce
  {}

  ghost predicate Received(s: State, s': State, key: int, frame: Frame) {
    && s'.queues == Enqueue(s.queues, key, Item(frame, |s.log|))
    && s'.log == s.log + [Arrived(key, frame, s.link.nonce)]
    && Authentic(key, frame)
  }

  /** A frame with start and ident bytes, carrying this opcode, and accepted by checksum or by shape. */
  predicate Authentic(key: int, frame: Frame) {
    Extract(frame).Carries? && Extract(frame).opcode as int == key && Queueable(frame, Extract(frame).opcode)
  }

  lemma NotifierKeepsTalk(s: State, k: nat, input: Input)
    requires AllInv(s) && k < |s.notifiers| && NotifierEnabled(s, k, input)
    ensures TalkInv(NotifierMove(s, k, input))
  {
    hide ReturnsInv, NotifierMove, NotifierEnabled, Open, LinkInv, QueueInv, Authentic, Enqueue;
    var s' := NotifierMove(s, k, input);
    NotifierFrame(s, k, input);
    NotifierEffect(s, k, input);
    if !Same(s, s') {
      var key, frame :| Received(s, s', key, frame);
      ReturnsLonger(s.log, Arrived(key, frame, s.link.nonce));
      forall i | 0 <= i < |s'.callers| && s'.lock == Some(Caller(i))
        ensures Progress(s'.queues, s'.log, i, s'.callers[i])
      {
        match s.callers[i]
        case Writing(cmd, since, _) => OpenArrival(s.queues, s.log, s.link.nonce, key, frame, i, cmd, since, []);
        case Waiting(cmd, since, got) => OpenArrival(s.queues, s.log, s.link.nonce, key, frame, i, cmd, since, got);
        case _ =>
      }
    }
  }

  lemma FinishedTalks(s: State, i: nat, cmd: Command, since: nat, got: seq<Item>)
    requires ReturnsInv(s.log) && i < |s.callers|
    requires Open(s.queues, s.log, i, cmd, since, got) && (got != [] ==> |got| <= Wanted(cmd))
    ensures TalkInv(Finished(s, i, cmd, since, got))
  {
    hide ReturnsInv, Exchange;
    if got != [] { ReturnsLonger(s.log, Returned(i, cmd, since, got)); }
  }

  lemma CallerPollTalks(s: State, i: nat, input: Input, cmd: Command, since: nat, got: seq<Item>)
    requires AllInv(s) && i < |s.callers| && s.callers[i] == Waiting(cmd, since, got) && !input.Ask? && !input.Hear?
    ensures TalkInv(CallerPoll(s, i, input, cmd, since, got))
  {
    hide ReturnsInv, Open, LinkInv, QueueInv, Front, Dequeue, Finished;
    assert s.lock == Some(Caller(i)) && Progress(s.queues, s.log, i, s.callers[i]);
    if input.Fail? {
    } else if input.Expire? {
      FinishedTalks(s, i, cmd, since, got);
    } else {
      var front := Front(s.queues, Key(cmd));
      var s' := Polled(s, Caller(i), Key(cmd));
      if front.Some? {
        OpenTook(s.queues, s.log, s.link.nonce, i, cmd, since, got, front.value);
        ReturnsLonger(s.log, Took(Caller(i), Key(cmd), front.value));
        if |got| + 1 >= Wanted(cmd) {
          FinishedTalks(s', i, cmd, since, got + [front.value]);
        }
      } else if !Live(s.link.mode) {
        FinishedTalks(s, i, cmd, since, got);
      }
    }
  }

  lemma CallerStartTalks(s: State, i: nat, input: Input, cmd: Command)
    requires TalkInv(s) && i < |s.callers| && s.callers[i] == Starting(cmd) && s.lock == Some(Caller(i))
    ensures TalkInv(CallerMove(s, i, input))
  {
    hide ReturnsInv, Open, Build;
    OpenEmptied(s.queues, s.log, i, cmd);
    ReturnsLonger(s.log, Emptied(Key(cmd), i, cmd));
  }

  lemma CallerKeepsTalk(s: State, i: nat, input: Input)
    requires AllInv(s) && i < |s.callers| && CallerEnabled(s, i, input)
    ensures TalkInv(CallerMove(s, i, input))
  {
    hide ReturnsInv, Open, LinkInv, QueueInv, Build, CallerPoll, Finished;
    match s.callers[i]
    case Starting(cmd) => CallerStartTalks(s, i, input, cmd);
    case Writing(cmd, since, frame) =>
      if !input.Fail? {
        OpenWrote(s.queues, s.log, i, cmd, since, frame);
        ReturnsLonger(s.log, Wrote(i, frame));
        if Wanted(cmd) <= 0 { FinishedTalks(s.(log := s.log + [Wrote(i, frame)]), i, cmd, since, []); }
      }
    case Waiting(cmd, since, got) => CallerPollTalks(s, i, input, cmd, since, got);
    case _ =>
  }

  lemma StepKeepsAll(s: State, a: Action)
    requires AllInv(s) && Enabled(s, a)
    ensures AllInv(Apply(s, a))
  {
    hide LockInv, LinkInv, QueueInv, TalkInv;
    hide MainMove, CallerMove, NotifierMove, MainEnabled, CallerEnabled, NotifierEnabled;
    StepKeepsLock(s, a);
    StepKeepsLink(s, a);
    StepKeepsQueues(s, a);
    match a
    case MainStep(input) => MainKeepsTalk(s, input);
    case CallerStep(i, input) => CallerKeepsTalk(s, i, input);
    case NotifierStep(k, input) => NotifierKeepsTalk(s, k, input);
  }

  lemma StartTalks(s: State)
    requires s.lock == None && s.log == []
    ensures TalkInv(s)
  {}

  lemma {:induction false} AllHolds(callers: nat, acts: seq<Action>)
    requires Legal(Start(callers), acts)
    ensures AllInv(Run(Start(callers), acts))
    decreases |acts|
  {
    hide LockInv, LinkInv, QueueInv, TalkInv, Apply, Enabled;
    if acts == [] {
      LockHolds(callers, acts);
      LinkHolds(callers, acts);
      QueuesHold(callers, acts);
      StartTalks(Start(callers));
    } else {
      AllHolds(callers, acts[..|acts| - 1]);
      StepKeepsAll(Run(Start(callers), acts[..|acts| - 1]), acts[|acts| - 1]);
    }
  }

  // ---------------------------------------------------------------------------------------------
  // Every arrival is authentic

  ghost predicate ArrivalsAuthentic(log: Log) {
    forall n :: 0 <= n < |log| && log[n].Arrived? ==> Authentic(log[n].opcode, log[n].frame)
  }

  lemma AuthenticSnoc(log: Log, e: Event)
    requires ArrivalsAuthentic(log) && (e.Arrived? ==> Authentic(e.opcode, e.frame))
    ensures ArrivalsAuthentic(log + [e])
  {
    hide Authentic;
  }

  lemma MainKeepsAuthentic(s: State, input: Input)
    requires ArrivalsAuthentic(s.log) && MainEnabled(s, input)
    ensures ArrivalsAuthentic(MainMove(s, input).log)
  {
    hide ArrivalsAuthentic, MainMove, MainEnabled, Front;
    var p := Polled(s, Main, RUNTIME_KEY);
    AuthenticSnoc(s.log, Cleared);
    if s.main.PrimeWaiting? {
      PrimeEffect(s, input);
      if Front(s.queues, RUNTIME_KEY).Some? {
        AuthenticSnoc(s.log, Took(Main, RUNTIME_KEY, Front(s.queues, RUNTIME_KEY).value));
      }
      AuthenticSnoc(p.log, Cleared);
    } else {
      MainOutside(s, input);
    }
  }

  lemma CallerPollAuthentic(s: State, i: nat, input: Input, cmd: Command, since: nat, got: seq<Item>)
    requires ArrivalsAuthentic(s.log) && i < |s.callers|
    ensures ArrivalsAuthentic(CallerPoll(s, i, input, cmd, since, got).log)
  {
    hide ArrivalsAuthentic, Front;
    var front := Front(s.queues, Key(cmd));
    AuthenticSnoc(s.log, Returned(i, cmd, since, got));
    if front.Some? {
      var p := Polled(s, Caller(i), Key(cmd));
      AuthenticSnoc(s.log, Took(Caller(i), Key(cmd), front.value));
      AuthenticSnoc(p.log, Returned(i, cmd, since, got + [front.value]));
    }
  }

  lemma CallerKeepsAuthentic(s: State, i: nat, input: Input)
    requires ArrivalsAuthentic(s.log) && i < |s.callers|
    ensures ArrivalsAuthentic(CallerMove(s, i, input).log)
  {
    hide ArrivalsAuthentic, CallerPoll, Build;
    match s.callers[i]
    case Starting(cmd) => AuthenticSnoc(s.log, Emptied(Key(cmd), i, cmd));
    case Writing(_, _, frame) => AuthenticSnoc(s.log, Wrote(i, frame));
    case Waiting(cmd, since, got) => CallerPollAuthentic(s, i, input, cmd, since, got);
    case _ =>
  }

  lemma StepKeepsAuthentic(s: State, a: Action)
    requires ArrivalsAuthentic(s.log) && LinkInv(s.link, s.main, s.notifiers) && Enabled(s, a)
    ensures ArrivalsAuthentic(Apply(s, a).log)
  {
    hide ArrivalsAuthentic, LinkInv, Authentic;
    hide MainMove, CallerMove, NotifierMove, MainEnabled, CallerEnabled, NotifierEnabled;
    match a
    case MainStep(input) => MainKeepsAuthentic(s, input);
    case CallerStep(i, input) => CallerKeepsAuthentic(s, i, input);
    case NotifierStep(k, input) =>
      NotifierEffect(s, k, input);
      if !Same(s, NotifierMove(s, k, input)) {
        var key, frame :| Received(s, NotifierMove(s, k, input), key, frame);
        AuthenticSnoc(s.log, Arrived(key, frame, s.link.nonce));
      }
  }

  lemma {:induction false} ArrivalsHold(callers: nat, acts: seq<Action>)
    requires Legal(Start(callers), acts)
    ensures ArrivalsAuthentic(Run(Start(callers), acts).log)
    decreases |acts|
  {
    hide LinkInv, Apply, Enabled, Authentic;
    if acts != [] {
      ArrivalsHold(callers, acts[..|acts| - 1]);
      LinkHolds(callers, acts[..|acts| - 1]);
      StepKeepsAuthentic(Run(Start(callers), acts[..|acts| - 1]), acts[|acts| - 1]);
    }
  }

  // ---------------------------------------------------------------------------------------------
  // The theorem

  lemma SameOpcode(a: bv8, b: bv8)
    requires a as int == b as int
    ensures a == b
  {}

  lemma AuthenticCarries(cmd: Command, frame: Frame)
    requires Authentic(Key(cmd), frame)
    ensures |frame| >= 5 && frame[0] == START && frame[2] == IDENT && frame[3] == cmd.opcode
    ensures Queueable(frame, cmd.opcode)
  {
    hide Xor, AcceptMismatch;
    SameOpcode(Extract(frame).opcode, cmd.opcode);
  }

  /** Whatever send_command or send_command_multi returns: between one and the wanted number of frames,
      each of which arrived after this call emptied its opcode's queue, in order of arrival, starting
      0x73/0x23 and carrying exactly that opcode; and in between no other task read a queue and no other
      command emptied one.  Only a teardown or a new session may have cleared them all: see BleReplay. */
  lemma ReturnedFrames(callers: nat, acts: seq<Action>, n: nat)
    requires Legal(Start(callers), acts)
    requires var log := Run(Start(callers), acts).log; n < |log| && log[n].Returned?
    ensures var log := Run(Start(callers), acts).log;
            var e := log[n];
            && Exchange(log, e.caller, e.cmd, e.since, e.items, n)
            && 1 <= |e.items| <= Wanted(e.cmd)
            && forall j :: 0 <= j < |e.items| ==>
                 var frame := e.items[j].frame;
                 && |frame| >= 5 && frame[0] == 0x73 && frame[2] == 0x23 && frame[3] == e.cmd.opcode
                 && Queueable(frame, e.cmd.opcode)
  {
    hide Run, LockInv, LinkInv, QueueInv, Queueable, Authentic;
    AllHolds(callers, acts);
    ArrivalsHold(callers, acts);
    var log := Run(Start(callers), acts).log;
    var e := log[n];
    assert Answered(log, n);
    forall j | 0 <= j < |e.items|
      ensures var frame := e.items[j].frame;
              && |frame| >= 5 && frame[0] == START && frame[2] == IDENT && frame[3] == e.cmd.opcode
              && Queueable(frame, e.cmd.opcode)
    {
      assert IsArrival(log[e.items[j].at], Key(e.cmd), e.items[j].frame);
      AuthenticCarries(e.cmd, e.items[j].frame);
    }
  }
}
