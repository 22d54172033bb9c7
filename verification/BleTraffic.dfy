/** What goes over the air, over every interleaving: which commands are written and in what form, which
notifications are queued, and how often a connection is set up again. */
module BleTraffic {
  import opened Options
  import opened BleFrames
  import opened NotifyQueues
  import opened BleProtocol
  import opened BleSafety
  import opened BleExchange
  import opened BleResponses

  // ---------------------------------------------------------------------------------------------
  // Every answer is to one request

  ghost predicate SentAt(log: Log, i: nat, cmd: Command, since: nat, upto: nat, w: nat)
    requires upto <= |log|
  {
    && since < w < upto && log[w].Wrote? && log[w].caller == i && Some(log[w].frame) == Build(cmd.opcode, cmd.payload)
    && (forall m :: since < m < upto && m != w ==> !log[m].Wrote?)
    && (forall m :: since < m < w ==> !log[m].Took?)
  }

  ghost predicate Sent(log: Log, i: nat, cmd: Command, since: nat, upto: nat)
    requires upto <= |log|
  {
    exists w :: SentAt(log, i, cmd, since, upto, w)
  }

  ghost predicate Unsent(log: Log, since: nat, upto: nat)
    requires upto <= |log|
  {
    forall m :: since < m < upto ==> !log[m].Wrote? && !log[m].Took?
  }

  ghost predicate Stage(log: Log, i: nat, pc: CallerPC) {
    match pc
    case Writing(cmd, since, frame) =>
      since < |log| && Unsent(log, since, |log|) && Build(cmd.opcode, cmd.payload) == Some(frame)
    case Waiting(cmd, since, _) => since < |log| && Sent(log, i, cmd, since, |log|)
    case _ => true
  }

  ghost predicate ReturnsSent(log: Log) {
    forall n :: 0 <= n < |log| && log[n].Returned? ==> Sent(log, log[n].caller, log[n].cmd, log[n].since, n)
  }

  ghost predicate TrafficInv(s: State) {
    && (forall i :: 0 <= i < |s.callers| && s.lock == Some(Caller(i)) ==> Stage(s.log, i, s.callers[i]))
    && ReturnsSent(s.log)
  }

  lemma SentLonger(log: Log, more: Log, i: nat, cmd: Command, since: nat, upto: nat)
    requires upto <= |log| && Sent(log, i, cmd, since, upto)
    ensures Sent(log + more, i, cmd, since, upto)
  {
    hide Build;
    var w :| SentAt(log, i, cmd, since, upto, w);
    assert forall m :: 0 <= m < upto ==> (log + more)[m] == log[m];
    assert SentAt(log + more, i, cmd, since, upto, w);
  }

  lemma SentMore(log: Log, e: Event, i: nat, cmd: Command, since: nat)
    requires Sent(log, i, cmd, since, |log|) && !e.Wrote?
    ensures Sent(log + [e], i, cmd, since, |log| + 1)
  {
    hide Build;
    var w :| SentAt(log, i, cmd, since, |log|, w);
    assert SentAt(log + [e], i, cmd, since, |log| + 1, w);
  }

  lemma NowSent(log: Log, i: nat, cmd: Command, since: nat, frame: Frame)
    requires since < |log| && Unsent(log, since, |log|) && Build(cmd.opcode, cmd.payload) == Some(frame)
    ensures Sent(log + [Wrote(i, frame)], i, cmd, since, |log| + 1)
  {
    hide Build;
    assert SentAt(log + [Wrote(i, frame)], i, cmd, since, |log| + 1, |log|);
  }

  lemma ReturnsSentSnoc(log: Log, e: Event)
    requires ReturnsSent(log) && (e.Returned? ==> Sent(log, e.caller, e.cmd, e.since, |log|))
    ensures ReturnsSent(log + [e])
  {
    hide Sent;
    var log' := log + [e];
    forall n | 0 <= n < |log'| && log'[n].Returned? ensures Sent(log', log'[n].caller, log'[n].cmd, log'[n].since, n) {
      SentLonger(log, [e], log'[n].caller, log'[n].cmd, log'[n].since, n);
    }
  }

  /** What is done to the log without the holder's doing: a clearing or an arrival. */
  lemma StageKept(log: Log, e: Event, i: nat, pc: CallerPC)
    requires Stage(log, i, pc) && (e.Cleared? || e.Arrived?)
    ensures Stage(log + [e], i, pc)
  {
    hide Sent, Build;
    if pc.Waiting? { SentMore(log, e, i, pc.cmd, pc.since); }
  }

  lemma MainKeepsTraffic(s: State, input: Input)
    requires TrafficInv(s) && LockInv(s) && MainEnabled(s, input)
    ensures TrafficInv(MainMove(s, input))
  {
    hide ReturnsSent, Stage, MainMove, MainEnabled, Front;
    var s' := MainMove(s, input);
    MainLocks(s, input);
    ReturnsSentSnoc(s.log, Cleared);
    if s.main.PrimeWaiting? {
      PrimeEffect(s, input);
      assert s.lock == Some(Main);
      if Front(s.queues, RUNTIME_KEY).Some? {
        var e := Took(Main, RUNTIME_KEY, Front(s.queues, RUNTIME_KEY).value);
        ReturnsSentSnoc(s.log, e);
        ReturnsSentSnoc(s.log + [e], Cleared);
      }
    } else {
      MainOutside(s, input);
      forall i | 0 <= i < |s'.callers| && s'.lock == Some(Caller(i)) ensures Stage(s'.log, i, s'.callers[i]) {
        StageKept(s.log, Cleared, i, s.callers[i]);
      }
    }
  }

  lemma NotifierKeepsTraffic(s: State, k: nat, input: Input)
    requires TrafficInv(s) && LinkInv(s.link, s.main, s.notifiers) && k < |s.notifiers| && NotifierEnabled(s, k, input)
    ensures TrafficInv(NotifierMove(s, k, input))
  {
    hide ReturnsSent, Stage, LinkInv, NotifierMove, NotifierEnabled, Authentic;
    var s' := NotifierMove(s, k, input);
    NotifierFrame(s, k, input);
    NotifierEffect(s, k, input);
    if !Same(s, s') {
      var key, frame :| Received(s, s', key, frame);
      var e := Arrived(key, frame, s.link.nonce);
      ReturnsSentSnoc(s.log, e);
      forall i | 0 <= i < |s'.callers| && s'.lock == Some(Caller(i)) ensures Stage(s'.log, i, s'.callers[i]) {
        StageKept(s.log, e, i, s.callers[i]);
      }
    }
  }

  lemma FinishedTraffic(s: State, i: nat, cmd: Command, since: nat, got: seq<Item>)
    requires ReturnsSent(s.log) && i < |s.callers| && Sent(s.log, i, cmd, since, |s.log|)
    ensures TrafficInv(Finished(s, i, cmd, since, got))
  {
    hide ReturnsSent, Stage, Sent;
    ReturnsSentSnoc(s.log, Returned(i, cmd, since, got));
  }

  lemma CallerPollTraffic(s: State, i: nat, input: Input, cmd: Command, since: nat, got: seq<Item>)
    requires TrafficInv(s) && i < |s.callers| && s.callers[i] == Waiting(cmd, since, got) && s.lock == Some(Caller(i))
    ensures TrafficInv(CallerPoll(s, i, input, cmd, since, got))
  {
    hide ReturnsSent, Sent, Finished, Front;
    assert Stage(s.log, i, s.callers[i]);
    FinishedTraffic(s, i, cmd, since, got);
    var front := Front(s.queues, Key(cmd));
    if front.Some? {
      var e := Took(Caller(i), Key(cmd), front.value);
      SentMore(s.log, e, i, cmd, since);
      ReturnsSentSnoc(s.log, e);
      FinishedTraffic(Polled(s, Caller(i), Key(cmd)), i, cmd, since, got + [front.value]);
    }
  }

  lemma CallerKeepsTraffic(s: State, i: nat, input: Input)
    requires TrafficInv(s) && LockInv(s) && i < |s.callers| && CallerEnabled(s, i, input)
    ensures TrafficInv(CallerMove(s, i, input))
  {
    hide ReturnsSent, Sent, Finished, CallerPoll, Build;
    match s.callers[i]
    case Starting(cmd) => ReturnsSentSnoc(s.log, Emptied(Key(cmd), i, cmd));
    case Writing(cmd, since, frame) =>
      assert Stage(s.log, i, s.callers[i]);
      NowSent(s.log, i, cmd, since, frame);
      ReturnsSentSnoc(s.log, Wrote(i, frame));
      FinishedTraffic(s.(log := s.log + [Wrote(i, frame)]), i, cmd, since, []);
    case Waiting(cmd, since, got) => CallerPollTraffic(s, i, input, cmd, since, got);
    case _ =>
  }

  lemma {:induction false} TrafficHolds(callers: nat, acts: seq<Action>)
    requires Legal(Start(callers), acts)
    ensures TrafficInv(Run(Start(callers), acts))
    decreases |acts|
  {
    hide TrafficInv, LockInv, LinkInv, MainMove, CallerMove, NotifierMove;
    hide MainEnabled, CallerEnabled, NotifierEnabled;
    if acts == [] {
      NoTraffic(Start(callers));
    } else {
      var before := acts[..|acts| - 1];
      TrafficHolds(callers, before);
      LockHolds(callers, before);
      LinkHolds(callers, before);
      var s := Run(Start(callers), before);
      match acts[|acts| - 1]
      case MainStep(input) => MainKeepsTraffic(s, input);
      case CallerStep(i, input) => CallerKeepsTraffic(s, i, input);
      case NotifierStep(k, input) => NotifierKeepsTraffic(s, k, input);
    }
  }

  lemma NoTraffic(s: State)
    requires s.lock == None && s.log == []
    ensures TrafficInv(s)
  {}

  /** Every result answers one request: between emptying its queue and returning, the command wrote exactly
      one frame, before it read any; and that frame is 0x73, its own length, 0x23, the command's opcode and
      payload, and a checksum that makes all its bytes XOR to 0. */
  lemma AnswersOneRequest(callers: nat, acts: seq<Action>, n: nat) returns (w: nat)
    requires Legal(Start(callers), acts)
    requires var log := Run(Start(callers), acts).log; n < |log| && log[n].Returned?
    ensures var log := Run(Start(callers), acts).log;
            var e := log[n];
            && e.since < w < n && log[w].Wrote? && log[w].caller == e.caller
            && (forall m :: e.since < m < n && m != w ==> !log[m].Wrote?)
            && (forall m :: e.since < m < w ==> !log[m].Took?)
            && var frame := log[w].frame;
               && |frame| == |e.cmd.payload| + 5 <= 255 && frame[0] == 0x73 && frame[1] == |frame| as bv8
               && frame[2] == 0x23 && frame[3] == e.cmd.opcode && frame[4..|frame| - 1] == e.cmd.payload
               && Xor(frame) == 0
  {
    hide Run, Xor;
    TrafficHolds(callers, acts);
    var log := Run(Start(callers), acts).log;
    var e := log[n];
    assert Sent(log, e.caller, e.cmd, e.since, n);
    w :| SentAt(log, e.caller, e.cmd, e.since, n, w);
    BuildExtract(e.cmd.opcode, e.cmd.payload);
    ExtractExact(log[w].frame, e.cmd.opcode);
  }

  // ---------------------------------------------------------------------------------------------
  // Which commands get that far

  /** A command asked for outside "ready" changes nothing; otherwise it queues for the lock.  Holding the
      lock, send_command gives up untouched if the link has gone down meanwhile; otherwise the opcode's
      queue is emptied, and the frame is built and will be written unless the write handle is gone or the
      payload is over 250 bytes. */
  lemma CommandStarts(callers: nat, acts: seq<Action>, i: nat, input: Input)
    requires Legal(Start(callers), acts)
    requires var s := Run(Start(callers), acts); i < |s.callers| && Enabled(s, CallerStep(i, input))
    ensures var s := Run(Start(callers), acts);
            var s' := Apply(s, CallerStep(i, input));
            && (s.callers[i].Idle? ==>
                  s' == if s.link.mode == Ready then s.(callers := s.callers[i := Locking(input.cmd)]) else s)
            && (s.callers[i].Starting? && input == Go ==>
                  var cmd := s.callers[i].cmd;
                  var alive := s.link.mode == Priming || s.link.mode == Ready;
                  var writes := s.link.write && |cmd.payload| <= 250;
                  if !cmd.multi && !alive then s' == s.(callers := s.callers[i := Idle], lock := None)
                  else
                    && s'.log == s.log + [Emptied(cmd.opcode as int, i, cmd)]
                    && s'.queues == s.queues - {cmd.opcode as int}
                    && (writes ==> s'.lock == s.lock && s'.callers[i].Writing? && s'.callers[i].cmd == cmd)
                    && (!writes ==> s'.lock == None && s'.callers[i] == Idle))
  {
    hide Run, Xor;
    LinkHolds(callers, acts);
  }

  // ---------------------------------------------------------------------------------------------
  // Notifications

  lemma Delivers(s: State, frame: Frame, session: nat)
    ensures var s' := Delivered(s, frame, session);
            && s'.link == s.link && s'.notifiers == s.notifiers
            && (if |frame| >= 5 && frame[0] == 0x73 && frame[2] == 0x23 && Queueable(frame, frame[3]) then
                  var key := frame[3] as int;
                  var all := Contents(s.queues, key) + [Item(frame, |s.log|)];
                  && s'.log == s.log + [Arrived(key, frame, session)]
                  && s'.queues == s.queues[key := if |all| > 6 then all[1..] else all]
                else s'.log == s.log && s'.queues == s.queues)
  {
    hide Xor, AcceptMismatch;
  }

  /** What the notification task makes of a frame: queued under its opcode, the oldest of seven dropped, if
      it is well shaped and its checksum or its shape passes; else ignored.  Either way the task listens on
      exactly while its session lasts and the state is "priming" or "ready". */
  lemma FrameHeard(callers: nat, acts: seq<Action>, k: nat, frame: Frame)
    requires Legal(Start(callers), acts)
    requires var s := Run(Start(callers), acts); k < |s.notifiers| && s.notifiers[k].pc == Listening
    ensures var s := Run(Start(callers), acts);
            && Enabled(s, NotifierStep(k, Hear(frame)))
            && var s' := Apply(s, NotifierStep(k, Hear(frame)));
               && s'.notifiers[k].pc == (if s.link.mode == Priming || s.link.mode == Ready then Listening else Ended)
               && (if |frame| >= 5 && frame[0] == 0x73 && frame[2] == 0x23 && Queueable(frame, frame[3]) then
                     var key := frame[3] as int;
                     var all := Contents(s.queues, key) + [Item(frame, |s.log|)];
                     && s'.log == s.log + [Arrived(key, frame, s.link.nonce)]
                     && s'.queues == s.queues[key := if |all| > 6 then all[1..] else all]
                   else s'.log == s.log && s'.queues == s.queues)
  {
    hide Run, Delivered, Queueable, Contents;
    LinkHolds(callers, acts);
    var s := Run(Start(callers), acts);
    Delivers(s, frame, s.notifiers[k].nonce);
  }

  /** If its await fails the task ends and the state is "degraded"; if it times out the task listens on
      exactly while its session lasts and the state is "priming" or "ready".  Nothing else changes. */
  lemma ListenerWaits(callers: nat, acts: seq<Action>, k: nat)
    requires Legal(Start(callers), acts)
    requires var s := Run(Start(callers), acts); k < |s.notifiers| && s.notifiers[k].pc == Listening
    ensures var s := Run(Start(callers), acts);
            var ended := s.(notifiers := s.notifiers[k := s.notifiers[k].(pc := Ended)]);
            && Enabled(s, NotifierStep(k, Fail)) && Enabled(s, NotifierStep(k, Go))
            && Apply(s, NotifierStep(k, Fail)) == ended.(link := s.link.(mode := Degraded))
            && Apply(s, NotifierStep(k, Go)) == if s.link.mode == Priming || s.link.mode == Ready then s else ended
  {
    hide Run;
    LinkHolds(callers, acts);
    var s := Run(Start(callers), acts);
    assert s.notifiers[k := s.notifiers[k].(pc := Listening)] == s.notifiers;
  }

  // ---------------------------------------------------------------------------------------------
  // The priming and the states of the link

  lemma DisconnectTo(s: State, waiting: MainPC, done: MainPC)
    ensures var pc := Disconnect(s, waiting, done).main; pc == waiting || pc == done
  {}

  lemma FailedTo(s: State, a: nat)
    ensures var pc := SetupFailed(s, a).main; pc == Failing(a) || pc == Retrying(a)
  {
    hide Disconnect;
    DisconnectTo(s.(link := s.link.(mode := Degraded)), Failing(a), Retrying(a));
  }

  /** A look at the runtime queue ends the priming well with a frame of at least 39 bytes under opcode 3,
      badly with any other frame, and badly if there is none and the link has gone; so does the deadline.
      Ended badly, the connection is taken down; either way the lock is given up. */
  lemma PrimingEnds(s: State, input: Input)
    requires s.main.PrimeWaiting? && MainEnabled(s, input)
    ensures var s', queue := MainMove(s, input), Contents(s.queues, 3);
            var looks := input == Go && queue != [];
            var good := looks && |queue[0].frame| >= 39 && queue[0].frame[3] == 3;
            var waits := input == Go && queue == [] && (s.link.mode == Priming || s.link.mode == Ready);
            && (good ==> s'.main == Holding && s'.link == s.link.(mode := Ready) && s'.lock == None)
            && (waits ==> s' == s)
            && (!good && !waits ==>
                  s'.main in {Failing(s.main.a), Retrying(s.main.a)} && s'.link.mode == Degraded && s'.lock == None)
  {
    hide Disconnect, Dequeue;
    var p := Polled(s, Main, RUNTIME_KEY);
    PolledFrame(s, Main, RUNTIME_KEY);
    FailedTo(Unlocked(s), s.main.a);
    FailedTo(Unlocked(p), s.main.a);
    FailedWipes(Unlocked(s), s.main.a);
    FailedWipes(Unlocked(p), s.main.a);
  }

  /** What the state says about where ble_loop stands. */
  predicate Tells(mode: Mode, pc: MainPC) {
    match pc
    case ScanningPC => mode == Scanning
    case ConnectingPC(_) => mode == Connecting
    case Settling(_) => mode == Connecting
    case NegotiatingPC(_) => mode == Negotiating
    case SubscribingPC(_) => mode == Subscribing
    case Holding => mode == Ready || mode == Degraded
    case Dropping => mode == Disconnected
    case Pausing => mode == Disconnected
    case Failing(_) => mode == Degraded
    case Retrying(_) => mode == Degraded
    case _ => mode == Priming || mode == Degraded
  }

  lemma MainTells(s: State, input: Input)
    requires Tells(s.link.mode, s.main) && MainEnabled(s, input)
    ensures var s' := MainMove(s, input); Tells(s'.link.mode, s'.main)
  {
    hide SetupFailed, Disconnect, Installed;
    match s.main
    case ConnectingPC(a) => FailureTells(s, a);
    case NegotiatingPC(a) => FailureTells(s, a);
    case SubscribingPC(a) =>
      FailureTells(s, a);
      InstalledTells(s, a);
    case PrimeStart(a) => FailureTells(Unlocked(s), a);
    case PrimeWriting(a) => FailureTells(Unlocked(s), a);
    case PrimeWaiting(a) =>
      hide PrimePoll;
      PrimingEnds(s, input);
    case Holding =>
      var down := s.(link := s.link.(mode := Disconnected));
      DisconnectTo(down, Dropping, Pausing);
      DisconnectWipes(down, Dropping, Pausing);
    case _ =>
  }

  lemma InstalledTells(s: State, a: nat)
    ensures var s' := Installed(s, a); Tells(s'.link.mode, s'.main)
  {}

  lemma FailureTells(s: State, a: nat)
    ensures var s' := SetupFailed(s, a); Tells(s'.link.mode, s'.main)
  {
    FailedTo(s, a);
    FailedWipes(s, a);
  }

  lemma NotifierTells(s: State, k: nat, input: Input)
    requires Tells(s.link.mode, s.main) && LinkInv(s.link, s.main, s.notifiers)
    requires k < |s.notifiers| && NotifierEnabled(s, k, input)
    ensures var s' := NotifierMove(s, k, input); Tells(s'.link.mode, s'.main)
  {
    hide Delivered;
    DeliveredLink(s, if input.Hear? then input.frame else [], s.notifiers[k].nonce);
  }

  lemma DeliveredLink(s: State, frame: Frame, session: nat)
    ensures Delivered(s, frame, session).link == s.link && Delivered(s, frame, session).main == s.main
    ensures Delivered(s, frame, session).notifiers == s.notifiers
  {
    hide Extract, Queueable, Enqueue;
  }

  /** Over every interleaving the state names the stage ble_loop is at; only a notification task that has
      failed can have set it to "degraded" before ble_loop notices. */
  lemma {:induction false} ModeTells(callers: nat, acts: seq<Action>)
    requires Legal(Start(callers), acts)
    ensures var s := Run(Start(callers), acts); Tells(s.link.mode, s.main)
    decreases |acts|
  {
    hide Tells, LinkInv, MainMove, CallerMove, NotifierMove, MainEnabled, CallerEnabled, NotifierEnabled;
    if acts == [] {
      StartTells(callers);
    } else {
      var before := acts[..|acts| - 1];
      ModeTells(callers, before);
      LinkHolds(callers, before);
      var s := Run(Start(callers), before);
      match acts[|acts| - 1]
      case MainStep(input) => MainTells(s, input);
      case CallerStep(i, input) => CallerKeepsLink(s, i, input);
      case NotifierStep(k, input) => NotifierTells(s, k, input);
    }
  }

  lemma StartTells(callers: nat)
    ensures Tells(Start(callers).link.mode, Start(callers).main)
  {}

  // ---------------------------------------------------------------------------------------------
  // Handshake retries

  /** The attempt of setting up a connection, while there is one. */
  function Attempt(pc: MainPC): nat {
    match pc
    case ConnectingPC(a) => a case Settling(a) => a case NegotiatingPC(a) => a case SubscribingPC(a) => a
    case PrimeSleep(a) => a case PrimeLocking(a) => a case PrimeStart(a) => a case PrimeWriting(a) => a
    case PrimeWaiting(a) => a case Failing(a) => a case Retrying(a) => a
    case _ => 1
  }

  lemma MainAttempt(s: State, input: Input)
    requires MainEnabled(s, input)
    ensures var s' := MainMove(s, input);
            Attempt(s'.main) == Attempt(s.main) || Attempt(s'.main) == 1
            || (s.main.Retrying? && Attempt(s.main) < 3 && Attempt(s'.main) == Attempt(s.main) + 1)
  {
    hide SetupFailed, Disconnect, Installed, Polled, Front;
    match s.main
    case ConnectingPC(a) => FailedTo(s, a);
    case NegotiatingPC(a) => FailedTo(s, a);
    case SubscribingPC(a) => FailedTo(s, a); assert Installed(s, a).main == PrimeSleep(a) by { InstalledTo(s, a); }
    case PrimeStart(a) => FailedTo(Unlocked(s), a);
    case PrimeWriting(a) => FailedTo(Unlocked(s), a);
    case PrimeWaiting(a) =>
      FailedTo(Unlocked(s), a);
      FailedTo(Unlocked(Polled(s, Main, RUNTIME_KEY)), a);
      PolledFrame(s, Main, RUNTIME_KEY);
    case Holding => DisconnectTo(s.(link := s.link.(mode := Disconnected)), Dropping, Pausing);
    case _ =>
  }

  lemma InstalledTo(s: State, a: nat)
    ensures Installed(s, a).main == PrimeSleep(a)
  {}

  lemma OthersKeepMain(s: State, a: Action)
    requires Enabled(s, a) && !a.MainStep?
    ensures Apply(s, a).main == s.main
  {
    hide CallerMove, NotifierMove;
    if a.CallerStep? { CallerKeepsLink(s, a.i, a.input); } else { NotifierFrame(s, a.k, a.input); }
  }

  /** A battery that was found is connected to at most three times before the next scan: attempts are
      numbered 1 to 3 in every reachable state; a failed one is followed by the next, and the third by the
      end of the round. */
  lemma {:induction false} ThreeAttempts(callers: nat, acts: seq<Action>)
    requires Legal(Start(callers), acts)
    ensures var s := Run(Start(callers), acts);
            && 1 <= Attempt(s.main) <= 3
            && (s.main.Retrying? ==>
                  MainMove(s, Go).main == if Attempt(s.main) < 3 then ConnectingPC(Attempt(s.main) + 1) else Pausing)
    decreases |acts|
  {
    hide MainMove, MainEnabled, CallerEnabled, NotifierEnabled, Attempt;
    if acts == [] {
      StartAttempt(callers);
    } else {
      var before, a := acts[..|acts| - 1], acts[|acts| - 1];
      ThreeAttempts(callers, before);
      var s := Run(Start(callers), before);
      if a.MainStep? {
        hide Apply;
        MainAttempt(s, a.input);
        assert Apply(s, a) == MainMove(s, a.input) by { MainApplies(s, a.input); }
      } else {
        OthersKeepMain(s, a);
      }
    }
    if Run(Start(callers), acts).main.Retrying? { RetryMoves(Run(Start(callers), acts)); }
  }

  lemma StartAttempt(callers: nat)
    ensures Attempt(Start(callers).main) == 1
  {}

  lemma MainApplies(s: State, input: Input)
    requires MainEnabled(s, input)
    ensures Apply(s, MainStep(input)) == MainMove(s, input)
  {}

  lemma RetryMoves(s: State)
    requires s.main.Retrying?
    ensures MainMove(s, Go).main == if Attempt(s.main) < 3 then ConnectingPC(Attempt(s.main) + 1) else Pausing
  {}
}
