/** The queues as the history of what was done to them.

The main task clears all queues without holding the lock when it takes a link down or sets one up, so a
command still waiting may lose frames to it (BleTeardown gives such a run).  The queues are shown to be
exactly what the history replays to; from that follow what a command gets when nothing was cleared
meanwhile, and that clears are exactly what separates sessions. */
module BleReplay {
  import opened Options
  import opened BleFrames
  import opened NotifyQueues
  import opened BleProtocol
  import opened BleSafety
  import opened BleExchange
  import opened BleResponses

  // ---------------------------------------------------------------------------------------------
  // The queues are the history replayed

  /** What an event does to the queues; `n` is its place in the log. */
  function OpOf(e: Event, n: nat): Option<Op<Item>> {
    match e
    case Arrived(opcode, frame, _) => Some(Arrive(opcode, Item(frame, n)))
    case Emptied(opcode, _, _) => Some(Drop(opcode))
    case Wrote(_, _) => None
    case Took(_, opcode, _) => Some(Read(opcode))
    case Cleared => Some(Wipe)
    case Returned(_, _, _, _) => None
  }

  function Ops(log: Log): seq<Op<Item>> {
    if log == [] then []
    else
      var op := OpOf(log[|log| - 1], |log| - 1);
      Ops(log[..|log| - 1]) + if op.Some? then [op.value] else []
  }

  function Effect(queues: Queues<Item>, e: Event, n: nat): Queues<Item> {
    var op := OpOf(e, n);
    if op.Some? then Step(queues, op.value) else queues
  }

  /** The queues are the history replayed, and every frame read was at the front of its queue. */
  ghost predicate Replayed(queues: Queues<Item>, log: Log) {
    && queues == AfterOps(Ops(log))
    && forall n :: 0 <= n < |log| && log[n].Took? ==> TookFront(log, n)
  }

  ghost predicate TookFront(log: Log, n: nat)
    requires n < |log| && log[n].Took?
  {
    Front(AfterOps(Ops(log[..n])), log[n].opcode) == Some(log[n].item)
  }

  lemma OpsSnoc(log: Log, e: Event)
    ensures var op := OpOf(e, |log|); Ops(log + [e]) == Ops(log) + if op.Some? then [op.value] else []
  {
    assert (log + [e])[..|log|] == log;
  }

  lemma AfterOpsSnoc(ops: seq<Op<Item>>, op: Op<Item>)
    ensures AfterOps(ops + [op]) == Step(AfterOps(ops), op)
  {
    assert (ops + [op])[..|ops|] == ops;
  }

  lemma ReplayedSnoc(queues: Queues<Item>, log: Log, e: Event)
    requires Replayed(queues, log) && (e.Took? ==> Front(queues, e.opcode) == Some(e.item))
    ensures Replayed(Effect(queues, e, |log|), log + [e])
  {
    hide Ops, AfterOps, Step, Front, OpOf;
    OpsSnoc(log, e);
    if OpOf(e, |log|).Some? {
      AfterOpsSnoc(Ops(log), OpOf(e, |log|).value);
    } else {
      assert Ops(log) + [] == Ops(log);
    }
    forall n | 0 <= n < |log + [e]| && (log + [e])[n].Took? ensures TookFront(log + [e], n) {
      assert (log + [e])[..n] == log[..n];
      assert n < |log| ==> TookFront(log, n);
      assert n == |log| ==> log[..n] == log;
    }
  }

  lemma PolledReplays(s: State, who: Who, key: int)
    requires Replayed(s.queues, s.log)
    ensures var p := Polled(s, who, key); Replayed(p.queues, p.log)
  {
    hide Replayed, Front, Dequeue;
    if Front(s.queues, key).Some? { ReplayedSnoc(s.queues, s.log, Took(who, key, Front(s.queues, key).value)); }
  }

  lemma MainReplays(s: State, input: Input)
    requires Replayed(s.queues, s.log) && MainEnabled(s, input)
    ensures var s' := MainMove(s, input); Replayed(s'.queues, s'.log)
  {
    hide Replayed, MainMove, MainEnabled, Polled;
    ReplayedSnoc(s.queues, s.log, Cleared);
    if s.main.PrimeWaiting? {
      var p := Polled(s, Main, RUNTIME_KEY);
      PrimeEffect(s, input);
      PolledReplays(s, Main, RUNTIME_KEY);
      ReplayedSnoc(p.queues, p.log, Cleared);
    } else {
      MainOutside(s, input);
    }
  }

  lemma FinishedReplays(s: State, i: nat, cmd: Command, since: nat, got: seq<Item>)
    requires Replayed(s.queues, s.log) && i < |s.callers|
    ensures var s' := Finished(s, i, cmd, since, got); Replayed(s'.queues, s'.log)
  {
    hide Replayed;
    ReplayedSnoc(s.queues, s.log, Returned(i, cmd, since, got));
  }

  lemma CallerPollReplays(s: State, i: nat, input: Input, cmd: Command, since: nat, got: seq<Item>)
    requires Replayed(s.queues, s.log) && i < |s.callers|
    ensures var s' := CallerPoll(s, i, input, cmd, since, got); Replayed(s'.queues, s'.log)
  {
    hide Replayed, Polled, Finished, Front;
    var p := Polled(s, Caller(i), Key(cmd));
    PolledReplays(s, Caller(i), Key(cmd));
    PolledFrame(s, Caller(i), Key(cmd));
    FinishedReplays(s, i, cmd, since, got);
    if Front(s.queues, Key(cmd)).Some? { FinishedReplays(p, i, cmd, since, got + [Front(s.queues, Key(cmd)).value]); }
  }

  lemma CallerReplays(s: State, i: nat, input: Input)
    requires Replayed(s.queues, s.log) && i < |s.callers|
    ensures var s' := CallerMove(s, i, input); Replayed(s'.queues, s'.log)
  {
    hide Replayed, CallerPoll, Build;
    match s.callers[i]
    case Starting(cmd) => ReplayedSnoc(s.queues, s.log, Emptied(Key(cmd), i, cmd));
    case Writing(cmd, since, frame) =>
      ReplayedSnoc(s.queues, s.log, Wrote(i, frame));
      FinishedReplays(s.(log := s.log + [Wrote(i, frame)]), i, cmd, since, []);
    case Waiting(cmd, since, got) => CallerPollReplays(s, i, input, cmd, since, got);
    case _ =>
  }

  lemma NotifierReplays(s: State, k: nat, input: Input)
    requires Replayed(s.queues, s.log) && LinkInv(s.link, s.main, s.notifiers)
    requires k < |s.notifiers| && NotifierEnabled(s, k, input)
    ensures var s' := NotifierMove(s, k, input); Replayed(s'.queues, s'.log)
  {
    hide Replayed, NotifierMove, NotifierEnabled, Enqueue, Authentic, LinkInv;
    NotifierEffect(s, k, input);
    if !Same(s, NotifierMove(s, k, input)) {
      var key, frame :| Received(s, NotifierMove(s, k, input), key, frame);
      ReplayedSnoc(s.queues, s.log, Arrived(key, frame, s.link.nonce));
    }
  }

  lemma StepReplays(s: State, a: Action)
    requires Replayed(s.queues, s.log) && LinkInv(s.link, s.main, s.notifiers) && Enabled(s, a)
    ensures var s' := Apply(s, a); Replayed(s'.queues, s'.log)
  {
    hide Replayed, LinkInv, MainMove, CallerMove, NotifierMove, MainEnabled, CallerEnabled, NotifierEnabled;
    match a
    case MainStep(input) => MainReplays(s, input);
    case CallerStep(i, input) => CallerReplays(s, i, input);
    case NotifierStep(k, input) => NotifierReplays(s, k, input);
  }

  /** In every reachable state the queues are what the history replays to on the bounded queues of
      NotifyQueues, so its theorems apply to them. */
  lemma {:induction false} QueuesAreHistory(callers: nat, acts: seq<Action>)
    requires Legal(Start(callers), acts)
    ensures var s := Run(Start(callers), acts); Replayed(s.queues, s.log)
    decreases |acts|
  {
    hide Replayed, LinkInv, Apply, Enabled;
    if acts == [] {
      NothingReplayed();
    } else {
      QueuesAreHistory(callers, acts[..|acts| - 1]);
      LinkHolds(callers, acts[..|acts| - 1]);
      StepReplays(Run(Start(callers), acts[..|acts| - 1]), acts[|acts| - 1]);
    }
  }

  lemma NothingReplayed()
    ensures Replayed(map[], [])
  {}

  // ---------------------------------------------------------------------------------------------
  // Clears are what separates sessions

  /** No clear strictly between two places of the log. */
  ghost predicate Clean(log: Log, lo: nat, hi: nat)
    requires hi <= |log|
  {
    forall m :: lo < m < hi ==> !log[m].Cleared?
  }

  /** No arrival is from the future, one since the last clear is of this session, and while the session
      is active only those are. */
  ghost predicate Ages(log: Log, session: nat, active: bool) {
    forall a :: 0 <= a < |log| && log[a].Arrived? ==>
      && log[a].session <= session
      && (Clean(log, a, |log|) ==> log[a].session == session)
      && (active && log[a].session == session ==> Clean(log, a, |log|))
  }

  ghost predicate Separated(log: Log, a: nat, b: nat)
    requires a < b < |log| && log[a].Arrived? && log[b].Arrived?
  {
    log[a].session == log[b].session <==> Clean(log, a, b)
  }

  ghost predicate SessionsInv(log: Log, session: nat, active: bool) {
    && Ages(log, session, active)
    && forall a, b :: 0 <= a < b < |log| && log[a].Arrived? && log[b].Arrived? ==> Separated(log, a, b)
  }

  lemma CleanSnoc(log: Log, e: Event, a: nat)
    requires a < |log|
    ensures Clean(log + [e], a, |log| + 1) <==> Clean(log, a, |log|) && !e.Cleared?
  {
    if Clean(log + [e], a, |log| + 1) {
      forall m | a < m < |log| ensures !log[m].Cleared? { assert (log + [e])[m] == log[m]; }
      assert (log + [e])[|log|] == e;
    }
  }

  lemma CleanLonger(log: Log, e: Event, a: nat, b: nat)
    requires b <= |log|
    ensures Clean(log + [e], a, b) <==> Clean(log, a, b)
  {
    assert forall m :: 0 <= m < b ==> (log + [e])[m] == log[m];
  }

  lemma SessionsSnoc(log: Log, e: Event, session: nat, active: bool, session': nat, active': bool)
    requires SessionsInv(log, session, active)
    requires e.Arrived? ==> e.session == session && session' == session && active
    requires e.Cleared? ==> session' > session || (session' == session && !active')
    requires !e.Cleared? ==> session' == session && (active' ==> active)
    ensures SessionsInv(log + [e], session', active')
  {
    hide Clean;
    var log' := log + [e];
    forall a | 0 <= a < |log| ensures Clean(log', a, |log'|) <==> Clean(log, a, |log|) && !e.Cleared? {
      CleanSnoc(log, e, a);
    }
    NothingAfter(log', |log|);
    forall a, b | 0 <= a < b < |log'| && log'[a].Arrived? && log'[b].Arrived? ensures Separated(log', a, b) {
      CleanLonger(log, e, a, b);
      if b < |log| { assert Separated(log, a, b); }
    }
  }

  lemma NothingAfter(log: Log, n: nat)
    requires n + 1 == |log|
    ensures Clean(log, n, |log|)
  {}

  lemma SessionsKept(log: Log, session: nat, active: bool, active': bool)
    requires SessionsInv(log, session, active) && (active' ==> active)
    ensures SessionsInv(log, session, active')
  {
    hide Clean, Separated;
  }

  lemma FailedDown(s: State, a: nat)
    ensures Down(SetupFailed(s, a).main)
  {}

  lemma MainOutsideActive(s: State, input: Input)
    requires MainEnabled(s, input) && !s.main.PrimeWaiting?
    ensures var s' := MainMove(s, input);
            && (Same(s, s') && Active(s'.main) ==> Active(s.main))
            && (Wiped(s, s') ==> s'.link.nonce > s.link.nonce || (s'.link.nonce == s.link.nonce && Down(s'.main)))
  {
    hide PrimePoll, Disconnect, SetupFailed;
    match s.main
    case ConnectingPC(a) => FailedWipes(s, a); FailedDown(s, a);
    case NegotiatingPC(a) => FailedWipes(s, a); FailedDown(s, a);
    case SubscribingPC(a) => FailedWipes(s, a); FailedDown(s, a);
    case PrimeStart(a) => FailedWipes(Unlocked(s), a); FailedDown(Unlocked(s), a);
    case PrimeWriting(a) => FailedWipes(Unlocked(s), a); FailedDown(Unlocked(s), a);
    case Holding => HoldingDown(s);
    case _ =>
  }

  lemma HoldingDown(s: State)
    ensures var s' := Disconnect(s.(link := s.link.(mode := Disconnected)), Dropping, Pausing);
            Down(s'.main) && s'.link.nonce == s.link.nonce
  {}

  lemma PrimeActive(s: State, input: Input)
    requires MainEnabled(s, input) && s.main.PrimeWaiting?
    ensures var s', p := MainMove(s, input), Polled(s, Main, RUNTIME_KEY);
            Wiped(s, s') || Wiped(p, s') ==> Down(s'.main)
  {
    hide Polled, Front, SetupFailed;
    var p := Polled(s, Main, RUNTIME_KEY);
    PolledFrame(s, Main, RUNTIME_KEY);
    PolledEvents(s, Main, RUNTIME_KEY);
    FailedDown(Unlocked(s), s.main.a);
    FailedDown(Unlocked(p), s.main.a);
    FailedWipes(Unlocked(s), s.main.a);
    FailedWipes(Unlocked(p), s.main.a);
  }

  /** A look at a queue adds one reading to the log, or nothing. */
  lemma PolledEvents(s: State, who: Who, key: int)
    ensures var p := Polled(s, who, key);
            p.log == s.log || (|p.log| == |s.log| + 1 && p.log[|s.log|].Took? && p.log == s.log + [p.log[|s.log|]])
  {}

  lemma MainSessions(s: State, input: Input)
    requires SessionsInv(s.log, s.link.nonce, Active(s.main)) && MainEnabled(s, input)
    ensures var s' := MainMove(s, input); SessionsInv(s'.log, s'.link.nonce, Active(s'.main))
  {
    hide SessionsInv, MainMove, MainEnabled, Polled;
    var s' := MainMove(s, input);
    if s.main.PrimeWaiting? {
      var p := Polled(s, Main, RUNTIME_KEY);
      PrimeEffect(s, input);
      PrimeActive(s, input);
      PolledEvents(s, Main, RUNTIME_KEY);
      if p.log != s.log {
        SessionsSnoc(s.log, p.log[|s.log|], s.link.nonce, true, s.link.nonce, true);
      }
      MainSessionsFrom(s.log, p.log, s', s.link.nonce);
    } else {
      MainOutside(s, input);
      MainOutsideActive(s, input);
      if Same(s, s') {
        SessionsKept(s.log, s.link.nonce, Active(s.main), Active(s'.main));
      } else {
        SessionsSnoc(s.log, Cleared, s.link.nonce, Active(s.main), s'.link.nonce, Active(s'.main));
      }
    }
  }

  lemma MainSessionsFrom(log: Log, polled: Log, s': State, session: nat)
    requires SessionsInv(log, session, true) && SessionsInv(polled, session, true) && s'.link.nonce == session
    requires s'.log == log || s'.log == polled
      || ((s'.log == log + [Cleared] || s'.log == polled + [Cleared]) && Down(s'.main))
    ensures SessionsInv(s'.log, session, Active(s'.main))
  {
    hide SessionsInv;
    SessionsKept(log, session, true, Active(s'.main));
    SessionsKept(polled, session, true, Active(s'.main));
    if Down(s'.main) {
      SessionsSnoc(log, Cleared, session, true, session, false);
      SessionsSnoc(polled, Cleared, session, true, session, false);
    }
  }

  /** The log grows by events that are neither arrivals nor clears. */
  ghost predicate Plain(log: Log, log': Log) {
    && log <= log'
    && forall m :: |log| <= m < |log'| ==> !log'[m].Arrived? && !log'[m].Cleared?
  }

  lemma CallerPollEvents(s: State, i: nat, input: Input, cmd: Command, since: nat, got: seq<Item>)
    requires i < |s.callers|
    ensures Plain(s.log, CallerPoll(s, i, input, cmd, since, got).log)
  {
    hide Polled, Front;
    PolledEvents(s, Caller(i), Key(cmd));
  }

  lemma CallerEvents(s: State, i: nat, input: Input)
    requires i < |s.callers|
    ensures Plain(s.log, CallerMove(s, i, input).log)
  {
    hide CallerPoll, Build;
    match s.callers[i]
    case Waiting(cmd, since, got) => CallerPollEvents(s, i, input, cmd, since, got);
    case _ =>
  }

  lemma {:induction false} SessionsPlain(log: Log, log': Log, session: nat, active: bool)
    requires SessionsInv(log, session, active) && Plain(log, log')
    ensures SessionsInv(log', session, active)
    decreases |log'|
  {
    hide SessionsInv;
    if |log'| > |log| {
      var front := log'[..|log'| - 1];
      SessionsPlain(log, front, session, active);
      SessionsSnoc(front, log'[|front|], session, active, session, active);
      assert front + [log'[|front|]] == log';
    } else {
      assert log' == log;
    }
  }

  lemma CallerSessions(s: State, i: nat, input: Input)
    requires SessionsInv(s.log, s.link.nonce, Active(s.main)) && i < |s.callers|
    ensures var s' := CallerMove(s, i, input); SessionsInv(s'.log, s'.link.nonce, Active(s'.main))
  {
    hide SessionsInv, CallerMove, Plain;
    CallerKeepsLink(s, i, input);
    CallerEvents(s, i, input);
    SessionsPlain(s.log, CallerMove(s, i, input).log, s.link.nonce, Active(s.main));
  }

  lemma ListenerActive(s: State, k: nat)
    requires LinkInv(s.link, s.main, s.notifiers) && k < |s.notifiers| && s.notifiers[k].pc != Ended
    ensures Active(s.main)
  {}

  lemma NotifierSessions(s: State, k: nat, input: Input)
    requires SessionsInv(s.log, s.link.nonce, Active(s.main)) && LinkInv(s.link, s.main, s.notifiers)
    requires k < |s.notifiers| && NotifierEnabled(s, k, input)
    ensures var s' := NotifierMove(s, k, input); SessionsInv(s'.log, s'.link.nonce, Active(s'.main))
  {
    hide SessionsInv, LinkInv, Authentic, Enqueue;
    NotifierEffect(s, k, input);
    NotifierFrame(s, k, input);
    NotifierReady(s, k, input);
    ListenerActive(s, k);
    if !Same(s, NotifierMove(s, k, input)) {
      var key, frame :| Received(s, NotifierMove(s, k, input), key, frame);
      SessionsSnoc(s.log, Arrived(key, frame, s.link.nonce), s.link.nonce, true, s.link.nonce, true);
    }
  }

  lemma StepSessions(s: State, a: Action)
    requires SessionsInv(s.log, s.link.nonce, Active(s.main)) && LinkInv(s.link, s.main, s.notifiers) && Enabled(s, a)
    ensures var s' := Apply(s, a); SessionsInv(s'.log, s'.link.nonce, Active(s'.main))
  {
    hide SessionsInv, LinkInv, MainMove, CallerMove, NotifierMove, MainEnabled, CallerEnabled, NotifierEnabled;
    match a
    case MainStep(input) => MainSessions(s, input);
    case CallerStep(i, input) => CallerSessions(s, i, input);
    case NotifierStep(k, input) => NotifierSessions(s, k, input);
  }

  lemma {:induction false} SessionsHold(callers: nat, acts: seq<Action>)
    requires Legal(Start(callers), acts)
    ensures var s := Run(Start(callers), acts); SessionsInv(s.log, s.link.nonce, Active(s.main))
    decreases |acts|
  {
    hide SessionsInv, LinkInv, Apply, Enabled;
    if acts == [] {
      NoSessions();
    } else {
      SessionsHold(callers, acts[..|acts| - 1]);
      LinkHolds(callers, acts[..|acts| - 1]);
      StepSessions(Run(Start(callers), acts[..|acts| - 1]), acts[|acts| - 1]);
    }
  }

  lemma NoSessions()
    ensures SessionsInv([], 0, false)
  {}

  /** Two frames arrived in the same session if and only if no clear lies between their arrivals. */
  lemma ClearsSeparateSessions(callers: nat, acts: seq<Action>, a: nat, b: nat)
    requires Legal(Start(callers), acts)
    requires var log := Run(Start(callers), acts).log; a < b < |log| && log[a].Arrived? && log[b].Arrived?
    ensures var log := Run(Start(callers), acts).log;
            log[a].session == log[b].session <==> Clean(log, a, b)
  {
    hide Run, Legal, Start, Clean;
    SessionsHold(callers, acts);
    assert Separated(Run(Start(callers), acts).log, a, b);
  }

  // ---------------------------------------------------------------------------------------------
  // A command with no clear in between

  /** The arrivals under `key` in a stretch of the log. */
  function ArrivalsIn(log: Log, key: int, lo: nat, hi: nat): seq<Item>
    requires hi <= |log|
  {
    if hi <= lo then []
    else
      ArrivalsIn(log, key, lo, hi - 1) +
      match log[hi - 1]
      case Arrived(opcode, frame, _) => if opcode == key then [Item(frame, hi - 1)] else []
      case _ => []
  }

  /** Nothing but arrivals and readings between two places of the log. */
  ghost predicate Unwiped(log: Log, lo: nat, hi: nat)
    requires hi <= |log|
  {
    forall m :: lo < m < hi ==> !log[m].Emptied? && !log[m].Cleared?
  }

  lemma StreamSnoc(log: Log, n: nat, key: int)
    requires n < |log|
    ensures var op := OpOf(log[n], n);
            StreamOf(Ops(log[..n + 1]), key) ==
            if op.Some? then Follow(StreamOf(Ops(log[..n]), key), op.value, key) else StreamOf(Ops(log[..n]), key)
  {
    hide Ops, OpOf, Follow;
    assert log[..n] + [log[n]] == log[..n + 1];
    OpsSnoc(log[..n], log[n]);
    var op := OpOf(log[n], n);
    if op.Some? {
      assert (Ops(log[..n]) + [op.value])[..|Ops(log[..n])|] == Ops(log[..n]);
    } else {
      assert Ops(log[..n]) + [] == Ops(log[..n]);
    }
  }

  lemma {:induction false} StreamSince(log: Log, key: int, since: nat, m: nat)
    requires since < m <= |log| && log[since].Emptied? && log[since].opcode == key && Unwiped(log, since, m)
    ensures StreamOf(Ops(log[..m]), key).arrivals == ArrivalsIn(log, key, since + 1, m)
    decreases m
  {
    hide StreamOf, Ops;
    StreamSnoc(log, m - 1, key);
    if m > since + 1 { StreamSince(log, key, since, m - 1); }
  }

  /** The read at `m` hands out the oldest arrival since `since` that was not read before, unless newer
      ones have pushed it out of the six that are kept. */
  ghost predicate ReadsOldest(log: Log, key: int, since: nat, m: nat)
    requires since < m < |log| && log[m].Took?
  {
    var arrivals := ArrivalsIn(log, key, since + 1, m);
    var s := Stream(arrivals, StreamOf(Ops(log[..m]), key).next);
    && s.next <= Oldest(s) < |arrivals| && log[m].item == arrivals[Oldest(s)]
    && (s.next < Oldest(s) ==> |arrivals| - Oldest(s) == 6)
  }

  lemma TakenIsOldest(queues: Queues<Item>, log: Log, key: int, since: nat, m: nat)
    requires Replayed(queues, log) && since < m < |log| && log[m].Took? && log[m].opcode == key
    requires log[since].Emptied? && log[since].opcode == key && Unwiped(log, since, m)
    ensures ReadsOldest(log, key, since, m)
  {
    hide StreamOf, Ops, AfterOps, Front, Contents, Oldest, ArrivalsIn;
    assert TookFront(log, m);
    ReadInOrder(Ops(log[..m]), key);
    StreamSince(log, key, since, m);
    var s := StreamOf(Ops(log[..m]), key);
    assert s == Stream(s.arrivals, s.next);
  }

  /** Another opcode's queue loses nothing in a stretch in which only `key` is read. */
  lemma {:induction false} OthersGrow(log: Log, key: int, other: int, lo: nat, hi: nat)
    requires lo < hi <= |log| && other != key && Unwiped(log, lo, hi)
    requires forall m :: lo < m < hi && log[m].Took? ==> log[m].opcode == key
    ensures var s, s' := StreamOf(Ops(log[..lo + 1]), other), StreamOf(Ops(log[..hi]), other);
            s'.next == s.next && s.arrivals <= s'.arrivals
    decreases hi
  {
    hide StreamOf, Ops;
    if hi > lo + 1 {
      OthersGrow(log, key, other, lo, hi - 1);
      StreamSnoc(log, hi - 1, other);
    }
  }

  lemma {:induction false} GotWasArrived(log: Log, callers: nat, acts: seq<Action>, e: Event, n: nat, j: nat, k: nat)
    requires Legal(Start(callers), acts) && log == Run(Start(callers), acts).log
    requires n < |log| && e == log[n] && e.Returned? && j < k < |e.items|
    requires Exchange(log, e.caller, e.cmd, e.since, e.items, n)
    ensures e.since < e.items[j].at < e.items[k].at < n
    ensures log[e.items[j].at].Arrived? && log[e.items[k].at].Arrived?
    ensures log[e.items[j].at].session == log[e.items[k].at].session <==> Clean(log, e.items[j].at, e.items[k].at)
  {
    hide Run, Legal, Start, Clean, Undisturbed, Taken;
    assert IsArrival(log[e.items[j].at], Key(e.cmd), e.items[j].frame);
    assert IsArrival(log[e.items[k].at], Key(e.cmd), e.items[k].frame);
    ClearsSeparateSessions(callers, acts, e.items[j].at, e.items[k].at);
  }

  /** A result's frames all arrived in one session if and only if nothing was cleared between the first
      and the last of them.  That nothing was, the clock sees to: BleTime. */
  lemma OneSessionIffUncleared(callers: nat, acts: seq<Action>, n: nat)
    requires Legal(Start(callers), acts)
    requires var log := Run(Start(callers), acts).log; n < |log| && log[n].Returned?
    ensures var log := Run(Start(callers), acts).log;
            var items := log[n].items;
            && items != [] && (forall j :: 0 <= j < |items| ==> items[j].at < n && log[items[j].at].Arrived?)
            && (OneSession(log, items) <==> Clean(log, items[0].at, items[|items| - 1].at))
  {
    hide Run, Legal, Start, Clean, Undisturbed, Taken;
    ReturnedFrames(callers, acts, n);
    var log := Run(Start(callers), acts).log;
    var e := log[n];
    var last := |e.items| - 1;
    forall j | 0 <= j <= last ensures e.items[j].at < n && log[e.items[j].at].Arrived? {
      assert IsArrival(log[e.items[j].at], Key(e.cmd), e.items[j].frame);
    }
    if last > 0 { GotWasArrived(log, callers, acts, e, n, 0, last); }
    if Clean(log, e.items[0].at, e.items[last].at) {
      forall j, k | 0 <= j < k <= last ensures log[e.items[j].at].session == log[e.items[k].at].session {
        GotWasArrived(log, callers, acts, e, n, j, k);
        CleanWithin(log, e.items[0].at, e.items[j].at, e.items[k].at, e.items[last].at);
      }
    }
    if last == 0 { NothingBetween(log, e.items[0].at); }
  }

  ghost predicate OneSession(log: Log, items: seq<Item>)
    requires forall j :: 0 <= j < |items| ==> items[j].at < |log| && log[items[j].at].Arrived?
  {
    forall j, k :: 0 <= j < k < |items| ==> log[items[j].at].session == log[items[k].at].session
  }

  lemma CleanWithin(log: Log, lo: nat, a: nat, b: nat, hi: nat)
    requires lo <= a && b <= hi <= |log| && Clean(log, lo, hi)
    ensures Clean(log, a, b)
  {}

  lemma NothingBetween(log: Log, n: nat)
    requires n <= |log|
    ensures Clean(log, n, n)
  {}

  /** A command during which nothing was cleared: its frames come from one session; each was the oldest
      of its opcode's arrivals since the command emptied the queue, less those it had read, unless six
      newer ones were kept instead; and no other opcode's queue lost a frame to anyone. */
  lemma ReturnedUncleared(callers: nat, acts: seq<Action>, n: nat, other: int)
    requires Legal(Start(callers), acts)
    requires var log := Run(Start(callers), acts).log;
             n < |log| && log[n].Returned? && log[n].since < n && Clean(log, log[n].since, n)
    ensures var log := Run(Start(callers), acts).log;
            var e := log[n];
            && (forall j :: 0 <= j < |e.items| ==> e.items[j].at < n && log[e.items[j].at].Arrived?)
            && OneSession(log, e.items)
            && (forall m :: e.since < m < n && log[m].Took? ==> ReadsOldest(log, Key(e.cmd), e.since, m))
            && (other != Key(e.cmd) ==>
                  var s, s' := StreamOf(Ops(log[..e.since + 1]), other), StreamOf(Ops(log[..n]), other);
                  s'.next == s.next && s.arrivals <= s'.arrivals)
  {
    hide Run, Legal, Start, Taken, Gathered, ReadsOldest, StreamOf, Ops, OneSession;
    ReturnedFrames(callers, acts, n);
    QueuesAreHistory(callers, acts);
    OneSessionIffUncleared(callers, acts, n);
    var s := Run(Start(callers), acts);
    var log := s.log;
    var e := log[n];
    WithinExchange(callers, acts, n);
    CleanWithin(log, e.since, e.items[0].at, e.items[|e.items| - 1].at, n);
    forall m | e.since < m < n && log[m].Took? ensures ReadsOldest(log, Key(e.cmd), e.since, m) {
      assert Quiet(log[m], e.caller, Key(e.cmd));
      QuietUnwiped(log, e.caller, Key(e.cmd), e.since, m, n);
      TakenIsOldest(s.queues, log, Key(e.cmd), e.since, m);
    }
    if other != Key(e.cmd) {
      QuietUnwiped(log, e.caller, Key(e.cmd), e.since, n, n);
      OthersGrow(log, Key(e.cmd), other, e.since, n);
    }
  }

  lemma WithinExchange(callers: nat, acts: seq<Action>, n: nat)
    requires Legal(Start(callers), acts)
    requires var log := Run(Start(callers), acts).log; n < |log| && log[n].Returned?
    ensures var e := Run(Start(callers), acts).log[n];
            e.items != [] && e.since < e.items[0].at && e.items[|e.items| - 1].at < n
  {
    hide Run, Legal, Start, Taken, Undisturbed;
    ReturnedFrames(callers, acts, n);
  }

  lemma QuietUnwiped(log: Log, i: nat, key: int, since: nat, m: nat, n: nat)
    requires since < m <= n <= |log| && Undisturbed(log, i, key, since, n) && Clean(log, since, n)
    ensures Unwiped(log, since, m)
    ensures forall k :: since < k < m && log[k].Took? ==> log[k].opcode == key
  {
    forall k | since < k < m ensures !log[k].Emptied? && !log[k].Cleared? && (log[k].Took? ==> log[k].opcode == key) {
      assert Quiet(log[k], i, key);
    }
  }
}
