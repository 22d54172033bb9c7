/** The tasks of esp32/marstek_ble.py as a state machine: ble_loop with its setup and priming, any
number of callers of send_command and send_command_multi, and the notification tasks.

One action is what one task does between two awaits.  Scan results, link failures, write errors,
time-outs, what the battery sends and which task runs next are the action's inputs, so what holds of
every legal action sequence holds of every interleaving.  There is no clock here: a sleep may end and a
wait may look at any time.  BleTime keeps both to the source's milliseconds. */
module BleProtocol {
  import opened Options
  import opened BleFrames
  import opened NotifyQueues

  datatype Mode =
    | Disconnected | Scanning | Connecting | Negotiating | Subscribing | Priming | Ready | Degraded

  predicate Live(m: Mode) { m == Priming || m == Ready }

  /** The module globals: state, which handles are not None, the session nonce and _notify_task. */
  datatype Link = Link(mode: Mode, conn: bool, write: bool, notify: bool, nonce: nat, task: Option<nat>)

  /** A queued frame and the index of its arrival in the log. */
  datatype Item = Item(frame: Frame, at: nat)

  /** Main is the ble_loop task; others are the command callers. */
  datatype Who = Main | Caller(i: nat)

  /** History; no step reads it.  `since` is where in the log the command emptied its opcode's queue, and
      Wrote is a command's frame written to the battery. */
  datatype Event =
    | Arrived(opcode: int, frame: Frame, session: nat)
    | Emptied(opcode: int, caller: nat, cmd: Command)
    | Wrote(caller: nat, frame: Frame)
    | Took(who: Who, opcode: int, item: Item)
    | Cleared
    | Returned(caller: nat, cmd: Command, since: nat, items: seq<Item>)

  datatype Command = Command(opcode: bv8, payload: Frame, multi: bool, count: int)

  datatype MainPC =
    | Pausing | ScanningPC | ConnectingPC(a: nat) | Settling(a: nat) | NegotiatingPC(a: nat) | SubscribingPC(a: nat)
    | PrimeSleep(a: nat) | PrimeLocking(a: nat) | PrimeStart(a: nat) | PrimeWriting(a: nat) | PrimeWaiting(a: nat)
    | Holding | Dropping | Failing(a: nat) | Retrying(a: nat)

  datatype CallerPC =
    | Idle | Locking(cmd: Command) | Starting(cmd: Command)
    | Writing(cmd: Command, since: nat, frame: Frame) | Waiting(cmd: Command, since: nat, got: seq<Item>)

  datatype NotifierPC = Created | Listening | Ended

  datatype Notifier = Notifier(nonce: nat, pc: NotifierPC)

  datatype State = State(
    link: Link, main: MainPC, lock: Option<Who>, callers: seq<CallerPC>,
    notifiers: seq<Notifier>, queues: Queues<Item>, log: seq<Event>)

  const HANDSHAKE_RETRIES: nat := 3

  function IdleCallers(n: nat): (pcs: seq<CallerPC>)
    ensures |pcs| == n && forall i :: 0 <= i < n ==> pcs[i] == Idle
  {
    seq(n, _ => Idle)
  }

  function Start(callers: nat): State {
    State.State(Link(Disconnected, false, false, false, 0, None), Pausing, None, IdleCallers(callers), [], map[], [])
  }

  datatype Input = Go | Fail | Expire | Ask(cmd: Command) | Hear(frame: Frame)

  datatype Action = MainStep(input: Input) | CallerStep(i: nat, input: Input) | NotifierStep(k: nat, input: Input)

  // ---------------------------------------------------------------------------------------------
  // ble_loop, _setup_connection, _prime_session, _disconnect_current

  function Enter(s: State, mode: Mode, pc: MainPC): State { s.(link := s.link.(mode := mode), main := pc) }

  /** The cancelled task does nothing any more. */
  function Cancelled(s: State): State {
    match s.link.task
    case None => s
    case Some(k) =>
      s.(link := s.link.(task := None),
         notifiers := if k < |s.notifiers| then s.notifiers[k := s.notifiers[k].(pc := Ended)] else s.notifiers)
  }

  /** The rest of _disconnect_current, after the link has been closed. */
  function Closed(s: State, pc: MainPC): State {
    s.(link := s.link.(conn := false, write := false, notify := false), queues := map[],
       log := s.log + [Cleared], main := pc)
  }

  /** _disconnect_current up to its await, or all of it if there is no connection. */
  function Disconnect(s: State, waiting: MainPC, done: MainPC): State {
    var s' := Cancelled(s);
    if s.link.conn then s'.(main := waiting) else Closed(s', done)
  }

  /** The handler around _setup_connection. */
  function SetupFailed(s: State, a: nat): State {
    Disconnect(s.(link := s.link.(mode := Degraded)), Failing(a), Retrying(a))
  }

  /** Handles in place, queues cleared, a new session and its notification task. */
  function Installed(s: State, a: nat): State {
    s.(link := Link(Priming, s.link.conn, true, true, s.link.nonce + 1, Some(|s.notifiers|)),
       notifiers := s.notifiers + [Notifier(s.link.nonce + 1, Created)],
       queues := map[], log := s.log + [Cleared], main := PrimeSleep(a))
  }

  function Unlocked(s: State): State { s.(lock := None) }

  /** _wait_for_opcode's look at the queue: the frame taken, if any. */
  function Polled(s: State, who: Who, opcode: int): State {
    var front := Front(s.queues, opcode);
    if front.None? then s
    else s.(queues := Dequeue(s.queues, opcode), log := s.log + [Took(who, opcode, front.value)])
  }

  /** Does a runtime frame end the priming well? */
  predicate GoodRuntime(frame: Frame) {
    |frame| >= MIN_RUNTIME_FRAME_LEN && frame[3] == RUNTIME
  }

  const RUNTIME_KEY: int := 3

  predicate MainEnabled(s: State, input: Input) {
    match s.main
    case ScanningPC => input.Go? || input.Fail? || input.Expire?
    case PrimeLocking(_) => input.Go? && s.lock.None?
    case Pausing => input.Go?
    case PrimeWaiting(_) => input.Go? || input.Expire?
    case Settling(_) => input.Go?
    case PrimeSleep(_) => input.Go?
    case PrimeStart(_) => input.Go?
    case Dropping => input.Go?
    case Failing(_) => input.Go?
    case Retrying(_) => input.Go?
    case Holding => input.Go?
    case _ => input.Go? || input.Fail?
  }

  /** A scan may find the battery, fail, or expire without having found it. */
  function MainMove(s: State, input: Input): State {
    match s.main
    case Pausing => Enter(s, Scanning, ScanningPC)
    case ScanningPC => if input.Go? then Enter(s, Connecting, ConnectingPC(1)) else Enter(s, Disconnected, Pausing)
    case ConnectingPC(a) =>
      if input.Go? then s.(link := s.link.(conn := true), main := Settling(a)) else SetupFailed(s, a)
    case Settling(a) => Enter(s, Negotiating, NegotiatingPC(a))
    case NegotiatingPC(a) => if input.Go? then Enter(s, Subscribing, SubscribingPC(a)) else SetupFailed(s, a)
    case SubscribingPC(a) => if input.Go? then Installed(s, a) else SetupFailed(s, a)
    case PrimeSleep(a) => s.(main := PrimeLocking(a))
    case PrimeLocking(a) => s.(lock := Some(Main), main := PrimeStart(a))
    case PrimeStart(a) => if s.link.write then s.(main := PrimeWriting(a)) else SetupFailed(Unlocked(s), a)
    case PrimeWriting(a) => if input.Go? then s.(main := PrimeWaiting(a)) else SetupFailed(Unlocked(s), a)
    case PrimeWaiting(a) => PrimePoll(s, input, a)
    case Holding => Disconnect(s.(link := s.link.(mode := Disconnected)), Dropping, Pausing)
    case Dropping => Closed(s, Pausing)
    case Failing(a) => Closed(s, Retrying(a))
    case Retrying(a) =>
      if a < HANDSHAKE_RETRIES then Enter(s, Connecting, ConnectingPC(a + 1)) else Enter(s, Disconnected, Pausing)
  }

  function PrimePoll(s: State, input: Input, a: nat): State {
    if input.Expire? then SetupFailed(Unlocked(s), a)
    else
      var front := Front(s.queues, RUNTIME_KEY);
      var s' := Polled(s, Main, RUNTIME_KEY);
      if front.Some? then
        if GoodRuntime(front.value.frame) then Enter(Unlocked(s'), Ready, Holding) else SetupFailed(Unlocked(s'), a)
      else if Live(s.link.mode) then s
      else SetupFailed(Unlocked(s), a)
  }

  // ---------------------------------------------------------------------------------------------
  // send_command, send_command_multi

  predicate CallerEnabled(s: State, i: nat, input: Input)
    requires i < |s.callers|
  {
    match s.callers[i]
    case Idle => input.Ask?
    case Locking(_) => (input.Go? && s.lock.None?) || input.Fail?
    case Starting(_) => input.Go? || input.Fail?
    case Writing(_, _, _) => input.Go? || input.Fail?
    case Waiting(_, _, _) => input.Go? || input.Expire? || input.Fail?
  }

  function At(s: State, i: nat, pc: CallerPC): State
    requires i < |s.callers|
  {
    s.(callers := s.callers[i := pc])
  }

  /** Leaving the lock's block; what was collected is returned, if anything. */
  function Finished(s: State, i: nat, cmd: Command, since: nat, got: seq<Item>): State
    requires i < |s.callers|
  {
    At(s, i, Idle).(lock := None, log := if got == [] then s.log else s.log + [Returned(i, cmd, since, got)])
  }

  function Wanted(cmd: Command): int { if cmd.multi then cmd.count else 1 }

  /** Fail stands for an exception or a cancelled caller. */
  function CallerMove(s: State, i: nat, input: Input): State
    requires i < |s.callers|
  {
    match s.callers[i]
    case Idle =>
      if input.Ask? && s.link.mode == Ready && s.link.write && s.link.notify then At(s, i, Locking(input.cmd)) else s
    case Locking(cmd) =>
      if input.Go? then At(s, i, Starting(cmd)).(lock := Some(Caller(i))) else At(s, i, Idle)
    case Starting(cmd) =>
      if input.Fail? || (!cmd.multi && !(s.link.write && Live(s.link.mode))) then Unlocked(At(s, i, Idle))
      else
        var key := cmd.opcode as int;
        var emptied := s.(queues := s.queues - {key}, log := s.log + [Emptied(key, i, cmd)]);
        if !s.link.write || Build(cmd.opcode, cmd.payload).None? then Unlocked(At(emptied, i, Idle))
        else At(emptied, i, Writing(cmd, |s.log|, Build(cmd.opcode, cmd.payload).value))
    case Writing(cmd, since, frame) =>
      if input.Fail? then Unlocked(At(s, i, Idle))
      else
        var wrote := s.(log := s.log + [Wrote(i, frame)]);
        if Wanted(cmd) <= 0 then Finished(wrote, i, cmd, since, []) else At(wrote, i, Waiting(cmd, since, []))
    case Waiting(cmd, since, got) => CallerPoll(s, i, input, cmd, since, got)
  }

  function CallerPoll(s: State, i: nat, input: Input, cmd: Command, since: nat, got: seq<Item>): State
    requires i < |s.callers|
  {
    if input.Fail? then Unlocked(At(s, i, Idle))
    else if input.Expire? then Finished(s, i, cmd, since, got)
    else
      var front := Front(s.queues, cmd.opcode as int);
      var s' := Polled(s, Caller(i), cmd.opcode as int);
      if front.Some? then
        var all := got + [front.value];
        if |all| >= Wanted(cmd) then Finished(s', i, cmd, since, all) else At(s', i, Waiting(cmd, since, all))
      else if Live(s.link.mode) then s
      else Finished(s, i, cmd, since, got)
  }

  // ---------------------------------------------------------------------------------------------
  // _notification_loop

  predicate NotifierEnabled(s: State, k: nat, input: Input)
    requires k < |s.notifiers|
  {
    match s.notifiers[k].pc
    case Created => input.Go?
    case Listening => input.Go? || input.Fail? || input.Hear?
    case Ended => false
  }

  /** The loop condition. */
  function LoopOn(s: State, k: nat): NotifierPC
    requires k < |s.notifiers|
  {
    var link := s.link;
    if s.notifiers[k].nonce == link.nonce && link.conn && link.notify && Live(link.mode) then Listening else Ended
  }

  /** A notification is dropped or queued under its opcode. */
  function Delivered(s: State, frame: Frame, session: nat): State {
    if !Extract(frame).Carries? || !Queueable(frame, Extract(frame).opcode) then s
    else
      var opcode := Extract(frame).opcode as int;
      s.(queues := Enqueue(s.queues, opcode, Item(frame, |s.log|)), log := s.log + [Arrived(opcode, frame, session)])
  }

  /** Go is the task's first run or a time-out of its await; Fail an exception out of it. */
  function NotifierMove(s: State, k: nat, input: Input): State
    requires k < |s.notifiers|
  {
    if input.Fail? then
      s.(link := s.link.(mode := Degraded), notifiers := s.notifiers[k := s.notifiers[k].(pc := Ended)])
    else
      var s' := if input.Hear? then Delivered(s, input.frame, s.notifiers[k].nonce) else s;
      s'.(notifiers := s.notifiers[k := s.notifiers[k].(pc := LoopOn(s, k))])
  }

  // ---------------------------------------------------------------------------------------------
  // Runs

  predicate Enabled(s: State, a: Action) {
    match a
    case MainStep(input) => MainEnabled(s, input)
    case CallerStep(i, input) => i < |s.callers| && CallerEnabled(s, i, input)
    case NotifierStep(k, input) => k < |s.notifiers| && NotifierEnabled(s, k, input)
  }

  function Apply(s: State, a: Action): State
    requires Enabled(s, a)
  {
    match a
    case MainStep(input) => MainMove(s, input)
    case CallerStep(i, input) => CallerMove(s, i, input)
    case NotifierStep(k, input) => NotifierMove(s, k, input)
  }

  predicate Legal(s: State, acts: seq<Action>)
    decreases |acts|, 0
  {
    acts == [] ||
    (Legal(s, acts[..|acts| - 1]) && Enabled(Run(s, acts[..|acts| - 1]), acts[|acts| - 1]))
  }

  function Run(s: State, acts: seq<Action>): State
    requires Legal(s, acts)
    decreases |acts|, 1
  {
    if acts == [] then s else Apply(Run(s, acts[..|acts| - 1]), acts[|acts| - 1])
  }

  lemma NoSteps(s: State)
    ensures Legal(s, []) && Run(s, []) == s
  {}

  /** One more step of a run under construction. */
  lemma Then(s0: State, acts: seq<Action>, s: State, a: Action) returns (more: seq<Action>, s': State)
    requires Legal(s0, acts) && Run(s0, acts) == s && Enabled(s, a)
    ensures more == acts + [a] && s' == Apply(s, a)
    ensures Legal(s0, more) && Run(s0, more) == s'
  {
    more, s' := acts + [a], Apply(s, a);
    assert more[..|acts|] == acts;
  }
}
