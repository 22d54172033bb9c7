/** That commands do what they are for: what is written, when a wait goes on, and that a command which
has its frames returns them.  Over every interleaving, as in BleResponses. */
module BleCommands {
  import opened Options
  import opened BleFrames
  import opened NotifyQueues
  import opened BleProtocol
  import opened BleSafety
  import opened BleExchange
  import opened BleResponses

  // ---------------------------------------------------------------------------------------------
  // Once it has its frames a command returns

  /** No command has emptied a queue since. */
  ghost predicate NoneSince(log: Log, since: nat, upto: nat)
    requires upto <= |log|
  {
    forall m :: since < m < upto ==> !log[m].Emptied?
  }

  /** The caller's read at `n` is one of a command that emptied its queue at `since`. */
  ghost predicate ReadsFor(log: Log, since: nat, n: nat) {
    && since < n < |log| && log[since].Emptied? && log[n].Took? && log[n].who == Caller(log[since].caller)
    && NoneSince(log, since, n)
  }

  /** If that makes as many frames as were asked for, the next event is their return. */
  ghost predicate Completes(log: Log, since: nat, n: nat)
    requires ReadsFor(log, since, n)
  {
    var cmd, frames := log[since].cmd, Taken(log, since + 1, n + 1);
    |frames| >= (if cmd.multi then cmd.count else 1) ==>
      n + 1 < |log| && log[n + 1] == Returned(log[since].caller, cmd, since, frames)
  }

  ghost predicate AllComplete(log: Log) {
    forall since: nat, n: nat :: ReadsFor(log, since, n) ==> Completes(log, since, n)
  }

  lemma ReadsBefore(log: Log, more: Log, since: nat, n: nat)
    requires ReadsFor(log + more, since, n) && n < |log|
    ensures ReadsFor(log, since, n)
    ensures Completes(log, since, n) ==> Completes(log + more, since, n)
  {
    var log' := log + more;
    assert log'[n] == log[n] && log'[since] == log[since];
    forall m | since < m < n ensures !log[m].Emptied? { assert log'[m] == log[m]; }
    TakenLonger(log, more, since + 1, n + 1);
  }

  /** Events that are not a caller's reading complete nothing. */
  lemma CompleteLonger(log: Log, more: Log)
    requires AllComplete(log) && forall k :: 0 <= k < |more| ==> !(more[k].Took? && more[k].who.Caller?)
    ensures AllComplete(log + more)
  {
    hide Completes;
    forall since: nat, n: nat | ReadsFor(log + more, since, n) ensures Completes(log + more, since, n) {
      ReadsBefore(log, more, since, n);
    }
  }

  lemma LastEmptied(log: Log, a: nat, b: nat)
    requires a < |log| && b < |log| && log[a].Emptied? && log[b].Emptied?
    requires NoneSince(log, a, |log|) && NoneSince(log, b, |log|)
    ensures a == b
  {}

  /** A reading that is not the last one wanted. */
  lemma CompleteRead(log: Log, since: nat, e: Event)
    requires AllComplete(log) && since < |log| && log[since].Emptied? && NoneSince(log, since, |log|) && e.Took?
    requires |Taken(log, since + 1, |log|)| + 1 < (if log[since].cmd.multi then log[since].cmd.count else 1)
    ensures AllComplete(log + [e])
  {
    hide Completes;
    var log' := log + [e];
    forall s: nat, n: nat | ReadsFor(log', s, n) ensures Completes(log', s, n) {
      if n == |log| {
        NoneBefore(log, [e], s);
        LastEmptied(log, s, since);
        TakenSnoc(log, e, since + 1);
        NotEnough(log', since, n);
      } else {
        ReadsBefore(log, [e], s, n);
      }
    }
  }

  lemma NoneBefore(log: Log, more: Log, s: nat)
    requires NoneSince(log + more, s, |log|)
    ensures NoneSince(log, s, |log|)
  {
    forall m | s < m < |log| ensures !log[m].Emptied? { assert (log + more)[m] == log[m]; }
  }

  lemma NotEnough(log: Log, since: nat, n: nat)
    requires ReadsFor(log, since, n)
    requires |Taken(log, since + 1, n + 1)| < (if log[since].cmd.multi then log[since].cmd.count else 1)
    ensures Completes(log, since, n)
  {}

  lemma Enough(log: Log, since: nat, n: nat)
    requires ReadsFor(log, since, n) && n + 1 < |log|
    requires log[n + 1] == Returned(log[since].caller, log[since].cmd, since, Taken(log, since + 1, n + 1))
    ensures Completes(log, since, n)
  {}

  /** The last reading wanted, and the return. */
  lemma CompleteReturn(log: Log, since: nat, e: Event, r: Event)
    requires AllComplete(log) && since < |log| && log[since].Emptied? && NoneSince(log, since, |log|) && e.Took?
    requires r == Returned(log[since].caller, log[since].cmd, since, Taken(log, since + 1, |log|) + [e.item])
    ensures AllComplete(log + [e] + [r])
  {
    hide Completes;
    var log' := log + [e] + [r];
    assert log' == log + [e, r];
    forall s: nat, n: nat | ReadsFor(log', s, n) ensures Completes(log', s, n) {
      if n == |log| {
        NoneBefore(log, [e, r], s);
        LastEmptied(log, s, since);
        TakenSnoc(log, e, since + 1);
        TakenLonger(log + [e], [r], since + 1, |log| + 1);
        Enough(log', since, n);
      } else if n < |log| {
        ReadsBefore(log, [e, r], s, n);
      }
    }
  }

  lemma OpenNoneSince(queues: Queues<Item>, log: Log, i: nat, cmd: Command, since: nat, got: seq<Item>)
    requires Open(queues, log, i, cmd, since, got)
    ensures since < |log| && log[since] == Emptied(Key(cmd), i, cmd) && NoneSince(log, since, |log|)
    ensures Taken(log, since + 1, |log|) == got
  {
    hide Gathered, Taken;
    forall m | since < m < |log| ensures !log[m].Emptied? { assert Quiet(log[m], i, Key(cmd)); }
  }

  lemma MainCompletes(s: State, input: Input)
    requires AllComplete(s.log) && MainEnabled(s, input)
    ensures AllComplete(MainMove(s, input).log)
  {
    hide AllComplete, MainMove, MainEnabled, Front;
    CompleteLonger(s.log, [Cleared]);
    if s.main.PrimeWaiting? {
      PrimeEffect(s, input);
      if Front(s.queues, RUNTIME_KEY).Some? {
        var e := Took(Main, RUNTIME_KEY, Front(s.queues, RUNTIME_KEY).value);
        CompleteLonger(s.log, [e]);
        CompleteLonger(s.log + [e], [Cleared]);
      }
    } else {
      MainOutside(s, input);
    }
  }

  lemma CallerPollCompletes(s: State, i: nat, input: Input, cmd: Command, since: nat, got: seq<Item>)
    requires AllComplete(s.log) && AllInv(s) && i < |s.callers| && s.callers[i] == Waiting(cmd, since, got)
    ensures AllComplete(CallerPoll(s, i, input, cmd, since, got).log)
  {
    hide AllComplete, Open, LinkInv, QueueInv, ReturnsInv, Front, Dequeue;
    assert s.lock == Some(Caller(i)) && Progress(s.queues, s.log, i, s.callers[i]);
    OpenNoneSince(s.queues, s.log, i, cmd, since, got);
    var front := Front(s.queues, Key(cmd));
    CompleteLonger(s.log, [Returned(i, cmd, since, got)]);
    if front.Some? {
      var e := Took(Caller(i), Key(cmd), front.value);
      if |got| + 1 < Wanted(cmd) {
        CompleteRead(s.log, since, e);
      } else {
        CompleteReturn(s.log, since, e, Returned(i, cmd, since, got + [front.value]));
      }
    }
  }

  lemma CallerCompletes(s: State, i: nat, input: Input)
    requires AllComplete(s.log) && AllInv(s) && i < |s.callers|
    ensures AllComplete(CallerMove(s, i, input).log)
  {
    hide AllComplete, AllInv, Build, CallerPoll;
    match s.callers[i]
    case Starting(cmd) => CompleteLonger(s.log, [Emptied(Key(cmd), i, cmd)]);
    case Writing(_, _, frame) => CompleteLonger(s.log, [Wrote(i, frame)]);
    case Waiting(cmd, since, got) => CallerPollCompletes(s, i, input, cmd, since, got);
    case _ =>
  }

  lemma NotifierCompletes(s: State, k: nat, input: Input)
    requires AllComplete(s.log) && AllInv(s) && k < |s.notifiers| && NotifierEnabled(s, k, input)
    ensures AllComplete(NotifierMove(s, k, input).log)
  {
    hide AllComplete, LinkInv, LockInv, QueueInv, TalkInv, NotifierMove, Authentic;
    NotifierEffect(s, k, input);
    if !Same(s, NotifierMove(s, k, input)) {
      var key, frame :| Received(s, NotifierMove(s, k, input), key, frame);
      CompleteLonger(s.log, [Arrived(key, frame, s.link.nonce)]);
    }
  }

  lemma {:induction false} CompletesHold(callers: nat, acts: seq<Action>)
    requires Legal(Start(callers), acts)
    ensures AllComplete(Run(Start(callers), acts).log)
    decreases |acts|
  {
    hide AllComplete, AllInv, MainMove, CallerMove, NotifierMove, MainEnabled, CallerEnabled, NotifierEnabled;
    if acts == [] {
      NothingRead();
    } else {
      var before := acts[..|acts| - 1];
      CompletesHold(callers, before);
      AllHolds(callers, before);
      var s := Run(Start(callers), before);
      match acts[|acts| - 1]
      case MainStep(input) => MainCompletes(s, input);
      case CallerStep(i, input) => CallerCompletes(s, i, input);
      case NotifierStep(k, input) => NotifierCompletes(s, k, input);
    }
  }

  lemma NothingRead()
    ensures AllComplete([])
  {}

  /** When a command has read as many frames as it wants, one for send_command and `count` for
      send_command_multi, the very next event is its return with exactly the frames it has read. */
  lemma FullCommandReturns(callers: nat, acts: seq<Action>, since: nat, n: nat)
    requires Legal(Start(callers), acts)
    requires var log := Run(Start(callers), acts).log;
             && since < n < |log| && log[since].Emptied? && log[n].Took? && log[n].who == Caller(log[since].caller)
             && (forall m :: since < m < n ==> !log[m].Emptied?)
             && |Taken(log, since + 1, n + 1)| >= if log[since].cmd.multi then log[since].cmd.count else 1
    ensures var log := Run(Start(callers), acts).log;
            && n + 1 < |log|
            && log[n + 1] == Returned(log[since].caller, log[since].cmd, since, Taken(log, since + 1, n + 1))
  {
    hide Run, Taken;
    CompletesHold(callers, acts);
    var log := Run(Start(callers), acts).log;
    assert ReadsFor(log, since, n);
    assert Completes(log, since, n);
  }

  // ---------------------------------------------------------------------------------------------
  // When a wait ends

  /** The first entry of a queue, if there is one. */
  function Head(queue: seq<Item>): seq<Item> { if queue == [] then [] else queue[..1] }

  lemma HoldsLock(s: State, i: nat)
    requires LockInv(s) && i < |s.callers| && CallerInside(s.callers[i])
    ensures s.lock == Some(Caller(i))
  {}

  /** What a caller has in hand while it waits. */
  lemma WaitingOpen(s: State, i: nat)
    requires AllInv(s) && i < |s.callers| && s.callers[i].Waiting?
    ensures var cmd, since, got := s.callers[i].cmd, s.callers[i].since, s.callers[i].got;
            && s.lock == Some(Caller(i)) && |got| < Wanted(cmd)
            && since < |s.log| && s.log[since] == Emptied(Key(cmd), i, cmd) && Taken(s.log, since + 1, |s.log|) == got
  {
    hide LockInv, LinkInv, QueueInv, ReturnsInv, Open, Taken;
    assert s.lock == Some(Caller(i)) by { assert CallerInside(s.callers[i]); HoldsLock(s, i); }
    assert Progress(s.queues, s.log, i, s.callers[i]);
    OpenNoneSince(s.queues, s.log, i, s.callers[i].cmd, s.callers[i].since, s.callers[i].got);
  }

  lemma DequeueRest(queues: Queues<Item>, key: int)
    ensures var q, q' := Contents(queues, key), Dequeue(queues, key);
            && Contents(q', key) == q[|Head(q)|..]
            && (forall other :: other != key ==> Contents(q', other) == Contents(queues, other))
            && (q != [] ==> Front(queues, key) == Some(q[0]) && Head(q) == [q[0]])
            && (q == [] ==> Front(queues, key) == None)
  {}

  lemma PollEffect(s: State, i: nat, input: Input, cmd: Command, since: nat, got: seq<Item>)
    requires i < |s.callers| && s.callers[i] == Waiting(cmd, since, got) && |got| < Wanted(cmd)
    requires s.lock == Some(Caller(i)) && CallerEnabled(s, i, input)
    ensures var s', queue := CallerPoll(s, i, input, cmd, since, got), Contents(s.queues, Key(cmd));
            var read := if input == Go then Head(queue) else [];
            var all := got + read;
            var stays := input == Go && |all| < Wanted(cmd) && (read != [] || Live(s.link.mode));
            && s'.callers == s.callers[i := if stays then Waiting(cmd, since, all) else Idle]
            && s'.lock == (if stays then s.lock else None)
            && Contents(s'.queues, Key(cmd)) == queue[|read|..]
            && (forall other :: other != Key(cmd) ==> Contents(s'.queues, other) == Contents(s.queues, other))
            && s'.log == s.log + (if read != [] then [Took(Caller(i), Key(cmd), read[0])] else []) +
                         (if !stays && input != Fail && all != [] then [Returned(i, cmd, since, all)] else [])
  {
    hide Dequeue, Contents, Front;
    DequeueRest(s.queues, Key(cmd));
    var queue := Contents(s.queues, Key(cmd));
    assert got + [] == got && s.log + [] == s.log && queue[0..] == queue;
    assert s.callers[i := Waiting(cmd, since, got)] == s.callers;
  }

  /** A look takes the queue's first frame, if any, and nothing else.  The wait goes on while it was a look
      that left it short of frames and either found one or saw the link alive.  When it ends, by a look,
      its deadline or a lost link, whatever frames were read are returned; only an exception or a
      cancelled caller leaves with none. */
  lemma WaitEnds(callers: nat, acts: seq<Action>, i: nat, input: Input)
    requires Legal(Start(callers), acts)
    requires var s := Run(Start(callers), acts);
             i < |s.callers| && s.callers[i].Waiting? && Enabled(s, CallerStep(i, input))
    ensures var s := Run(Start(callers), acts);
            var s', cmd, since := Apply(s, CallerStep(i, input)), s.callers[i].cmd, s.callers[i].since;
            var key, queue := cmd.opcode as int, Contents(s.queues, cmd.opcode as int);
            var read := if input == Go then Head(queue) else [];
            && since < |s.log| && s.log[since] == Emptied(key, i, cmd)
            && var all := Taken(s.log, since + 1, |s.log|) + read;
               var short := |all| < if cmd.multi then cmd.count else 1;
               var stays := input == Go && short && (read != [] || s.link.mode == Priming || s.link.mode == Ready);
               && s'.callers == s.callers[i := if stays then Waiting(cmd, since, all) else Idle]
               && s'.lock == (if stays then s.lock else None)
               && Contents(s'.queues, key) == queue[|read|..]
               && (forall other :: other != key ==> Contents(s'.queues, other) == Contents(s.queues, other))
               && s'.log == s.log + (if read != [] then [Took(Caller(i), key, read[0])] else []) +
                            (if !stays && input != Fail && all != [] then [Returned(i, cmd, since, all)] else [])
  {
    hide Run, AllInv, CallerPoll, Taken, Contents;
    AllHolds(callers, acts);
    var s := Run(Start(callers), acts);
    WaitingOpen(s, i);
    PollEffect(s, i, input, s.callers[i].cmd, s.callers[i].since, s.callers[i].got);
  }
}
