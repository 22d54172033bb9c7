/** What every interleaving of the BLE tasks keeps: handles, sessions, mutual exclusion, and where
each returned frame came from. */
module BleSafety {
  import opened Options
  import opened BleFrames
  import opened NotifyQueues
  import opened BleProtocol

  // ---------------------------------------------------------------------------------------------
  // Handles and notification tasks

  /** From installing the handles until the teardown begins. */
  predicate Active(pc: MainPC) {
    pc.PrimeSleep? || pc.PrimeLocking? || pc.PrimeStart? || pc.PrimeWriting? || pc.PrimeWaiting? || pc.Holding?
  }

  predicate Down(pc: MainPC) { pc.Pausing? || pc.Dropping? || pc.Failing? || pc.Retrying? }

  ghost predicate LinkInv(link: Link, main: MainPC, notifiers: seq<Notifier>) {
    && (Active(main) || main.Settling? || main.NegotiatingPC? || main.SubscribingPC? ==> link.conn)
    && (Active(main) ==> link.write && link.notify)
    && (Active(main) <==> link.task.Some?)
    && (Live(link.mode) ==> Active(main))
    && (link.task.Some? ==> link.task.value < |notifiers|)
    && forall k :: 0 <= k < |notifiers| && notifiers[k].pc != Ended ==>
         link.task == Some(k) && notifiers[k].nonce == link.nonce
  }

  ghost predicate OnlyCurrent(link: Link, notifiers: seq<Notifier>) {
    && (link.task.Some? ==> link.task.value < |notifiers|)
    && forall k :: 0 <= k < |notifiers| && notifiers[k].pc != Ended ==>
         link.task == Some(k) && notifiers[k].nonce == link.nonce
  }

  lemma DisconnectKeepsLink(s: State, waiting: MainPC, done: MainPC)
    requires OnlyCurrent(s.link, s.notifiers) && !Live(s.link.mode) && Down(waiting) && Down(done)
    ensures var s' := Disconnect(s, waiting, done); LinkInv(s'.link, s'.main, s'.notifiers)
  {}

  lemma InstallKeepsLink(s: State, a: nat)
    requires LinkInv(s.link, s.main, s.notifiers) && s.main.SubscribingPC?
    ensures var s' := Installed(s, a); LinkInv(s'.link, s'.main, s'.notifiers)
  {}

  lemma MainKeepsLink(s: State, input: Input)
    requires LinkInv(s.link, s.main, s.notifiers) && MainEnabled(s, input)
    ensures var s' := MainMove(s, input); LinkInv(s'.link, s'.main, s'.notifiers)
  {
    hide Disconnect, Installed, Polled;
    match s.main
    case SubscribingPC(a) =>
      if input.Go? { InstallKeepsLink(s, a); } else { FailKeepsLink(s, a); }
    case Holding => DisconnectKeepsLink(s.(link := s.link.(mode := Disconnected)), Dropping, Pausing);
    case ConnectingPC(a) => FailKeepsLink(s, a);
    case NegotiatingPC(a) => FailKeepsLink(s, a);
    case PrimeStart(a) => FailKeepsLink(Unlocked(s), a);
    case PrimeWriting(a) => FailKeepsLink(Unlocked(s), a);
    case PrimeWaiting(a) =>
      FailKeepsLink(Unlocked(s), a);
      PolledFrame(s, Main, RUNTIME_KEY);
      FailKeepsLink(Unlocked(Polled(s, Main, RUNTIME_KEY)), a);
    case _ =>
  }

  lemma FailKeepsLink(s: State, a: nat)
    requires OnlyCurrent(s.link, s.notifiers)
    ensures var s' := SetupFailed(s, a); LinkInv(s'.link, s'.main, s'.notifiers)
  {
    DisconnectKeepsLink(s.(link := s.link.(mode := Degraded)), Failing(a), Retrying(a));
  }

  lemma PolledFrame(s: State, who: Who, opcode: int)
    ensures var s' := Polled(s, who, opcode);
            && s'.link == s.link && s'.main == s.main && s'.lock == s.lock && s'.callers == s.callers
            && s'.notifiers == s.notifiers
  {}

  lemma CallerPollKeepsLink(s: State, i: nat, input: Input, cmd: Command, since: nat, got: seq<Item>)
    requires i < |s.callers|
    ensures var s' := CallerPoll(s, i, input, cmd, since, got);
            s'.link == s.link && s'.main == s.main && s'.notifiers == s.notifiers
  {
    hide Polled, Front;
    PolledFrame(s, Caller(i), cmd.opcode as int);
  }

  lemma CallerKeepsLink(s: State, i: nat, input: Input)
    requires i < |s.callers|
    ensures var s' := CallerMove(s, i, input); s'.link == s.link && s'.main == s.main && s'.notifiers == s.notifiers
  {
    hide CallerPoll, Build;
    if s.callers[i].Waiting? {
      CallerPollKeepsLink(s, i, input, s.callers[i].cmd, s.callers[i].since, s.callers[i].got);
    }
  }

  lemma NotifierKeepsLink(s: State, k: nat, input: Input)
    requires LinkInv(s.link, s.main, s.notifiers) && k < |s.notifiers| && NotifierEnabled(s, k, input)
    ensures var s' := NotifierMove(s, k, input); LinkInv(s'.link, s'.main, s'.notifiers)
  {
    hide Extract, Queueable, Enqueue;
  }

  lemma StepKeepsLink(s: State, a: Action)
    requires LinkInv(s.link, s.main, s.notifiers) && Enabled(s, a)
    ensures var s' := Apply(s, a); LinkInv(s'.link, s'.main, s'.notifiers)
  {
    hide LinkInv, MainMove, CallerMove, NotifierMove, MainEnabled, CallerEnabled, NotifierEnabled;
    match a
    case MainStep(input) => MainKeepsLink(s, input);
    case CallerStep(i, input) => CallerKeepsLink(s, i, input);
    case NotifierStep(k, input) => NotifierKeepsLink(s, k, input);
  }

  lemma StartLink(s: State)
    requires s.main == Pausing && s.link.mode == Disconnected && s.link.task == None && s.notifiers == []
    ensures LinkInv(s.link, s.main, s.notifiers)
  {}

  lemma {:induction false} LinkHolds(callers: nat, acts: seq<Action>)
    requires Legal(Start(callers), acts)
    ensures var s := Run(Start(callers), acts); LinkInv(s.link, s.main, s.notifiers)
    decreases |acts|
  {
    hide LinkInv, Apply, Enabled;
    if acts == [] {
      StartLink(Start(callers));
    } else {
      LinkHolds(callers, acts[..|acts| - 1]);
      StepKeepsLink(Run(Start(callers), acts[..|acts| - 1]), acts[|acts| - 1]);
    }
  }

  /** In states "priming" and "ready" the connection and the write and notify handles are set. */
  lemma HandlesSet(callers: nat, acts: seq<Action>)
    requires Legal(Start(callers), acts) && Live(Run(Start(callers), acts).link.mode)
    ensures var link := Run(Start(callers), acts).link; link.conn && link.write && link.notify
  {
    hide Run;
    LinkHolds(callers, acts);
  }

  /** At most one notification task is alive, the one of the current session. */
  lemma OneListener(callers: nat, acts: seq<Action>, j: nat, k: nat)
    requires Legal(Start(callers), acts)
    requires var ns := Run(Start(callers), acts).notifiers;
             j < |ns| && k < |ns| && ns[j].pc != Ended && ns[k].pc != Ended
    ensures var s := Run(Start(callers), acts); j == k && s.notifiers[k].nonce == s.link.nonce
  {
    hide Run;
    LinkHolds(callers, acts);
  }

  // ---------------------------------------------------------------------------------------------
  // Mutual exclusion

  predicate MainInside(pc: MainPC) { pc.PrimeStart? || pc.PrimeWriting? || pc.PrimeWaiting? }

  predicate CallerInside(pc: CallerPC) { pc.Starting? || pc.Writing? || pc.Waiting? }

  predicate Inside(s: State, who: Who) {
    match who
    case Main => MainInside(s.main)
    case Caller(i) => i < |s.callers| && CallerInside(s.callers[i])
  }

  ghost predicate LockInv(s: State) {
    && (MainInside(s.main) <==> s.lock == Some(Main))
    && forall i :: 0 <= i < |s.callers| ==> (CallerInside(s.callers[i]) <==> s.lock == Some(Caller(i)))
  }

  lemma DisconnectFrame(s: State, waiting: MainPC, done: MainPC)
    ensures var s' := Disconnect(s, waiting, done);
            s'.lock == s.lock && s'.callers == s.callers && (s'.main == waiting || s'.main == done)
  {}

  lemma FailFrame(s: State, a: nat)
    ensures var s' := SetupFailed(s, a); s'.lock == s.lock && s'.callers == s.callers && !MainInside(s'.main)
  {
    hide Disconnect;
    DisconnectFrame(s.(link := s.link.(mode := Degraded)), Failing(a), Retrying(a));
  }

  lemma PrimePollKeepsLock(s: State, input: Input, a: nat)
    requires LockInv(s) && s.main == PrimeWaiting(a)
    ensures LockInv(PrimePoll(s, input, a))
  {
    hide Polled, Front, SetupFailed;
    PolledFrame(s, Main, RUNTIME_KEY);
    FailFrame(Unlocked(s), a);
    FailFrame(Unlocked(Polled(s, Main, RUNTIME_KEY)), a);
  }

  lemma MainKeepsLock(s: State, input: Input)
    requires LockInv(s) && MainEnabled(s, input)
    ensures LockInv(MainMove(s, input))
  {
    hide PrimePoll, Disconnect, SetupFailed;
    match s.main
    case ConnectingPC(a) => FailFrame(s, a);
    case NegotiatingPC(a) => FailFrame(s, a);
    case SubscribingPC(a) => FailFrame(s, a);
    case PrimeStart(a) => FailFrame(Unlocked(s), a);
    case PrimeWriting(a) => FailFrame(Unlocked(s), a);
    case PrimeWaiting(a) => PrimePollKeepsLock(s, input, a);
    case Holding => DisconnectFrame(s.(link := s.link.(mode := Disconnected)), Dropping, Pausing);
    case _ =>
  }

  lemma CallerPollKeepsLock(s: State, i: nat, input: Input, cmd: Command, since: nat, got: seq<Item>)
    requires LockInv(s) && i < |s.callers| && s.callers[i].Waiting?
    requires s.callers[i] == Waiting(cmd, since, got)
    ensures LockInv(CallerPoll(s, i, input, cmd, since, got))
  {
    hide Polled, Front;
    PolledFrame(s, Caller(i), cmd.opcode as int);
  }

  lemma CallerKeepsLock(s: State, i: nat, input: Input)
    requires LockInv(s) && i < |s.callers| && CallerEnabled(s, i, input)
    ensures LockInv(CallerMove(s, i, input))
  {
    hide CallerPoll, Build;
    if s.callers[i].Waiting? {
      CallerPollKeepsLock(s, i, input, s.callers[i].cmd, s.callers[i].since, s.callers[i].got);
    }
  }

  lemma NotifierFrame(s: State, k: nat, input: Input)
    requires k < |s.notifiers|
    ensures var s' := NotifierMove(s, k, input); s'.main == s.main && s'.lock == s.lock && s'.callers == s.callers
  {
    hide Extract, Queueable, Enqueue;
  }

  lemma StepKeepsLock(s: State, a: Action)
    requires LockInv(s) && Enabled(s, a)
    ensures LockInv(Apply(s, a))
  {
    hide MainMove, CallerMove, NotifierMove, MainEnabled, CallerEnabled, NotifierEnabled;
    match a
    case MainStep(input) => MainKeepsLock(s, input);
    case CallerStep(i, input) => CallerKeepsLock(s, i, input);
    case NotifierStep(k, input) => NotifierFrame(s, k, input);
  }

  lemma StartLock(s: State)
    requires s.main == Pausing && s.lock == None && forall i :: 0 <= i < |s.callers| ==> s.callers[i] == Idle
    ensures LockInv(s)
  {}

  lemma {:induction false} LockHolds(callers: nat, acts: seq<Action>)
    requires Legal(Start(callers), acts)
    ensures LockInv(Run(Start(callers), acts))
    decreases |acts|
  {
    hide LockInv, Apply, Enabled;
    if acts == [] {
      StartLock(Start(callers));
    } else {
      LockHolds(callers, acts[..|acts| - 1]);
      StepKeepsLock(Run(Start(callers), acts[..|acts| - 1]), acts[|acts| - 1]);
    }
  }

  /** No two of the priming task and the command callers are between emptying and reading at once. */
  lemma ConsumersExclude(callers: nat, acts: seq<Action>, a: Who, b: Who)
    requires Legal(Start(callers), acts)
    requires Inside(Run(Start(callers), acts), a) && Inside(Run(Start(callers), acts), b)
    ensures a == b
  {
    hide Run;
    LockHolds(callers, acts);
  }
}
