/** The exporter's recovery protocol as a whole: MQTT callbacks, the poll loop and the supervisor's
Run goroutine, sharing the collector, the two one-slot channels and the supervisor's mutex.

One action is one critical section, channel operation or outside answer of one goroutine.  Publish
errors, timeouts, clock readings, bridge answers and the ESP32 fallback are the action's inputs, so
what holds of every legal action sequence holds of every interleaving. */
module Recovery {
  import opened Options
  import opened CheckProtocol
  import opened PollLoop

  /** `window` is the freshness window interval + timeout; `fallback` whether the ESP32 metrics
      fallback is enabled and a bridge is there to ask; `accepts` is what Collector.Update decides. */
  datatype Setup = Setup(check: Config, threshold: int, window: int, fallback: bool, accepts: string -> bool)

  /** One MQTT callback: idle, payload accepted and clock read, cache replaced, up raised. */
  datatype CallbackPC = Waiting | Committing(payload: string, at: int) | Raising | Signalling

  datatype PollPC =
    | StartDraining | Draining | Scraping | Publishing | PublishError | Awaiting | CheckingFreshness
    | FallingBack | FallbackApplied | TimingOut | Lowering(r: PollResult) | Handling(r: PollResult)
    | EnablingRecovery(r: PollResult) | Counting(r: PollResult) | Triggering | Ticking | PollStopped

  datatype RunPC = RunSelecting | RunReceived(byTrigger: bool) | RunChecking | RunStopped

  datatype Counters = Counters(
    scrapes: nat, scrapeErrors: nat, timeouts: nat, publishErrors: nat, fallbacks: nat, cancelled: nat)

  datatype Moment = PayloadAccepted(payload: string) | Triggered | CheckEntered(byTrigger: bool) | WiFiConfigured

  /** The supervisor: what CheckProtocol shares, where Run's own Check stands, and Run itself. */
  datatype Sup = Sup(sh: Shared, pc: PC, run: RunPC)

  /** The poll loop.  `results` and `n.cancelled` are history; no step reads them. */
  datatype Loop = Loop(pc: PollPC, misses: Misses, n: Counters, results: seq<PollResult>)

  /** The two one-slot channels: triggerCh and responseCh. */
  datatype Wires = Wires(trigger: bool, response: bool)

  /** The collector fields the protocol reads or the claims speak about. */
  datatype Cache = Cache(lastUpdateAt: Option<int>, up: bool)

  /** `log` is history as well. */
  datatype State = State(
    sup: Sup, loop: Loop, wires: Wires, cache: Cache,
    callbacks: seq<CallbackPC>, cancelled: bool, log: seq<Moment>)

  function NoCallbacks(n: nat): (pcs: seq<CallbackPC>)
    ensures |pcs| == n && forall t :: 0 <= t < n ==> pcs[t] == Waiting
  {
    seq(n, _ => Waiting)
  }

  function Start(callbacks: nat): State {
    State.State(
      Sup(FRESH, Idle, RunSelecting),
      Loop(StartDraining, Misses(0, false), Counters(0, 0, 0, 0, 0, 0), []),
      Wires(false, false), Cache(None, false), NoCallbacks(callbacks), false, [])
  }

  datatype PollInput = Go | Fail | Timer | Done | Clock(now: int)

  datatype RunInput = Ticker | Token | CtxDone | Bridge(input: Input)

  datatype Action =
    | Cancel
    | Callback(i: nat, payload: string, now: int)
    | Poll(p: PollInput)
    | RunStep(r: RunInput)

  // ---------------------------------------------------------------------------------------------
  // MQTT callbacks

  function CallbackMove(c: Setup, s: State, i: nat, payload: string, now: int): State
    requires i < |s.callbacks|
  {
    match s.callbacks[i]
    case Waiting =>
      if c.accepts(payload) then s.(callbacks := s.callbacks[i := Committing(payload, now)]) else s
    case Committing(text, at) =>
      s.(cache := s.cache.(lastUpdateAt := Some(at)), log := s.log + [PayloadAccepted(text)],
         callbacks := s.callbacks[i := Raising])
    case Raising => s.(cache := s.cache.(up := true), callbacks := s.callbacks[i := Signalling])
    case Signalling => s.(wires := s.wires.(response := true), callbacks := s.callbacks[i := Waiting])
  }

  // ---------------------------------------------------------------------------------------------
  // The poll loop

  predicate PollEnabled(s: State, p: PollInput) {
    match s.loop.pc
    case Publishing => p.Go? || p.Fail?
    case Awaiting => (p.Go? && s.wires.response) || p.Timer? || (p.Done? && s.cancelled)
    case CheckingFreshness => p.Clock?
    case FallingBack => p.Clock? || p.Fail?
    case EnablingRecovery(_) => p.Go? && !s.sup.sh.mutex
    case Ticking => p.Go? || (p.Done? && s.cancelled)
    case PollStopped => false
    case _ => p.Go?
  }

  /** HasFreshPayload(window) on the collector, at the clock reading `now`. */
  predicate FreshPayload(c: Setup, cache: Cache, now: int) {
    c.window >= 0 && cache.lastUpdateAt.Some? && now - cache.lastUpdateAt.value <= c.window
  }

  /** The loop's own part of a step. */
  function LoopMove(c: Setup, loop: Loop, cache: Cache, p: PollInput): Loop {
    var n := loop.n;
    match loop.pc
    case StartDraining => loop.(pc := Draining)
    case Draining => loop.(pc := Scraping)
    case Scraping => loop.(pc := Publishing, n := n.(scrapes := n.scrapes + 1))
    case Publishing => loop.(pc := if p.Fail? then PublishError else Awaiting)
    case PublishError =>
      loop.(pc := Lowering(PublishFailed),
            n := n.(scrapeErrors := n.scrapeErrors + 1, publishErrors := n.publishErrors + 1))
    case Awaiting =>
      if p.Go? then loop.(pc := Handling(Responded))
      else if p.Timer? then loop.(pc := CheckingFreshness)
      else loop.(pc := PollStopped, n := n.(cancelled := n.cancelled + 1))
    case CheckingFreshness =>
      if p.Clock? && FreshPayload(c, cache, p.now) then loop.(pc := Handling(FreshTelemetry))
      else loop.(pc := if c.fallback then FallingBack else TimingOut)
    case FallingBack => loop.(pc := if p.Clock? then FallbackApplied else TimingOut)
    case FallbackApplied => loop.(pc := TimingOut, n := n.(fallbacks := n.fallbacks + 1))
    case TimingOut =>
      loop.(pc := Lowering(TimedOut), n := n.(scrapeErrors := n.scrapeErrors + 1, timeouts := n.timeouts + 1))
    case Lowering(r) => loop.(pc := Handling(r))
    case Handling(r) =>
      loop.(pc := if r.Healthy() then EnablingRecovery(r) else Counting(r), results := loop.results + [r])
    case EnablingRecovery(r) => loop.(pc := Counting(r))
    case Counting(r) =>
      var (m, trigger) := Handle(loop.misses, r, c.threshold);
      loop.(pc := if trigger then Triggering else Ticking, misses := m)
    case Triggering => loop.(pc := Ticking)
    case Ticking => loop.(pc := if p.Go? then Draining else PollStopped)
    case PollStopped => loop
  }

  /** What a step does to the collector: the fallback's update and MarkDown. */
  function CacheMove(loop: Loop, cache: Cache, p: PollInput): Cache {
    match loop.pc
    case FallingBack => if p.Clock? then cache.(lastUpdateAt := Some(p.now)) else cache
    case Lowering(_) => cache.(up := false)
    case _ => cache
  }

  /** What a step does to the channels: draining, taking the response, TriggerCheck. */
  function WiresMove(loop: Loop, wires: Wires, p: PollInput): Wires {
    match loop.pc
    case StartDraining => wires.(response := false)
    case Draining => wires.(response := false)
    case Awaiting => if p.Go? then wires.(response := false) else wires
    case Triggering => wires.(trigger := true)
    case _ => wires
  }

  function PollMove(c: Setup, s: State, p: PollInput): State
    requires PollEnabled(s, p)
  {
    s.(loop := LoopMove(c, s.loop, s.cache, p),
       cache := CacheMove(s.loop, s.cache, p),
       wires := WiresMove(s.loop, s.wires, p),
       sup := if s.loop.pc.EnablingRecovery? then EnabledSup(s.sup) else s.sup,
       log := if s.loop.pc.Triggering? then s.log + [Triggered] else s.log)
  }

  function EnabledSup(sup: Sup): Sup { sup.(sh := sup.sh.(f := sup.sh.f.(enabled := true))) }

  // ---------------------------------------------------------------------------------------------
  // The supervisor's Run goroutine, the only caller of Check

  predicate RunEnabled(s: State, r: RunInput) {
    match s.sup.run
    case RunSelecting => r.Ticker? || (r.Token? && s.wires.trigger) || (r.CtxDone? && s.cancelled)
    case RunReceived(_) => CanMove(s.sup.sh, s.sup.pc, GiveUp)
    case RunChecking => r.Bridge? && CanMove(s.sup.sh, s.sup.pc, r.input)
    case RunStopped => false
  }

  function RunMove(c: Setup, s: State, r: RunInput): State
    requires RunEnabled(s, r)
  {
    match s.sup.run
    case RunSelecting =>
      if r.Ticker? then s.(sup := s.sup.(run := RunReceived(false)))
      else if r.Token? then s.(wires := s.wires.(trigger := false), sup := s.sup.(run := RunReceived(true)))
      else s.(sup := s.sup.(run := RunStopped))
    case RunReceived(byTrigger) =>
      var (sh, pc) := Move(c.check, s.sup.sh, 0, s.sup.pc, GiveUp);
      if pc.Idle? then s.(sup := Sup(sh, pc, RunSelecting))
      else s.(sup := Sup(sh, pc, RunChecking), log := s.log + [CheckEntered(byTrigger)])
    case RunChecking =>
      var (sh, pc) := Move(c.check, s.sup.sh, 0, s.sup.pc, r.input);
      s.(sup := Sup(sh, pc, if pc.Idle? then RunSelecting else RunChecking),
         log := if s.sup.pc.Configuring? then s.log + [WiFiConfigured] else s.log)
  }

  // ---------------------------------------------------------------------------------------------
  // Runs

  predicate Enabled(s: State, a: Action) {
    match a
    case Cancel => true
    case Callback(i, _, _) => i < |s.callbacks|
    case Poll(p) => PollEnabled(s, p)
    case RunStep(r) => RunEnabled(s, r)
  }

  function Apply(c: Setup, s: State, a: Action): State
    requires Enabled(s, a)
  {
    match a
    case Cancel => s.(cancelled := true)
    case Callback(i, payload, now) => CallbackMove(c, s, i, payload, now)
    case Poll(p) => PollMove(c, s, p)
    case RunStep(r) => RunMove(c, s, r)
  }

  predicate Legal(c: Setup, s: State, acts: seq<Action>)
    decreases |acts|, 0
  {
    acts == [] ||
    (Legal(c, s, acts[..|acts| - 1]) && Enabled(Execute(c, s, acts[..|acts| - 1]), acts[|acts| - 1]))
  }

  function Execute(c: Setup, s: State, acts: seq<Action>): State
    requires Legal(c, s, acts)
    decreases |acts|, 1
  {
    if acts == [] then s else Apply(c, Execute(c, s, acts[..|acts| - 1]), acts[|acts| - 1])
  }

  lemma LegalSnoc(c: Setup, s: State, acts: seq<Action>, a: Action)
    requires Legal(c, s, acts) && Enabled(Execute(c, s, acts), a)
    ensures Legal(c, s, acts + [a]) && Execute(c, s, acts + [a]) == Apply(c, Execute(c, s, acts), a)
  {
    assert (acts + [a])[..|acts|] == acts;
  }

  /** One more step of a run under construction. */
  lemma Then(c: Setup, s0: State, acts: seq<Action>, s: State, a: Action)
    returns (more: seq<Action>, s': State)
    requires Legal(c, s0, acts) && Execute(c, s0, acts) == s && Enabled(s, a)
    ensures more == acts + [a] && s' == Apply(c, s, a)
    ensures Legal(c, s0, more) && Execute(c, s0, more) == s'
  {
    LegalSnoc(c, s0, acts, a);
    more, s' := acts + [a], Apply(c, s, a);
  }

  lemma NoSteps(c: Setup, s: State)
    ensures Legal(c, s, []) && Execute(c, s, []) == s
  {}

  // ---------------------------------------------------------------------------------------------
  // The supervisor part follows CheckProtocol

  /** Run is the only caller: it is past beginCheck exactly while it is checking. */
  ghost predicate SupervisorInv(c: Setup, sup: Sup) {
    && AtPC(c.check, sup.sh, sup.pc)
    && LogNumbered(c.check, sup.sh.log)
    && (sup.run.RunChecking? <==> !sup.pc.Idle?)
    && (sup.sh.f.inProgress <==> !sup.pc.Idle?)
    && (sup.pc.Gating? || sup.pc.Reserving? || BetweenReservationAndCall(sup.pc) ==> c.check.hasWiFi)
  }

  lemma GateNeedsCredentials(c: Config, sh: Shared, pc: PC, input: Input)
    requires CanMove(sh, pc, input)
    requires pc.Gating? || pc.Reserving? || BetweenReservationAndCall(pc) ==> c.hasWiFi
    ensures var pc' := Move(c, sh, 0, pc, input).1;
            pc'.Gating? || pc'.Reserving? || BetweenReservationAndCall(pc') ==> c.hasWiFi
  {}

  lemma CheckerMoves(c: Setup, sup: Sup, input: Input, sh: Shared, pc: PC)
    requires SupervisorInv(c, sup) && CanMove(sup.sh, sup.pc, input)
    requires (sh, pc) == Move(c.check, sup.sh, 0, sup.pc, input)
    ensures pc.Idle? ==> SupervisorInv(c, Sup(sh, pc, RunSelecting))
    ensures !pc.Idle? ==> SupervisorInv(c, Sup(sh, pc, RunChecking))
  {
    MoveKeepsAtPC(c.check, sup.sh, 0, sup.pc, input);
    MoveKeepsLog(c.check, sup.sh, 0, sup.pc, input);
    MoveKeepsProgress(c.check, sup.sh, 0, sup.pc, input);
    GateNeedsCredentials(c.check, sup.sh, sup.pc, input);
  }

  lemma RunKeepsSupervisor(c: Setup, s: State, r: RunInput)
    requires SupervisorInv(c, s.sup) && RunEnabled(s, r)
    ensures SupervisorInv(c, RunMove(c, s, r).sup)
  {
    if !s.sup.run.RunSelecting? {
      var input := if s.sup.run.RunReceived? then GiveUp else r.input;
      var moved := Move(c.check, s.sup.sh, 0, s.sup.pc, input);
      CheckerMoves(c, s.sup, input, moved.0, moved.1);
    }
  }

  lemma EnablingKeepsSupervisor(c: Setup, sup: Sup)
    requires SupervisorInv(c, sup)
    ensures SupervisorInv(c, EnabledSup(sup))
  {}

  lemma SupervisorStep(c: Setup, s: State, a: Action)
    requires SupervisorInv(c, s.sup) && Enabled(s, a)
    ensures SupervisorInv(c, Apply(c, s, a).sup)
  {
    match a
    case Cancel =>
    case Callback(i, payload, now) => assert CallbackMove(c, s, i, payload, now).sup == s.sup;
    case Poll(p) => EnablingKeepsSupervisor(c, s.sup);
    case RunStep(r) => RunKeepsSupervisor(c, s, r);
  }

  lemma SupervisorStarts(c: Setup, sup: Sup)
    requires sup.sh == FRESH && sup.pc.Idle? && sup.run.RunSelecting?
    ensures SupervisorInv(c, sup)
  {
    FreshAtPC(c.check);
    IdleSupervisor(c, sup, FRESH);
  }

  lemma IdleSupervisor(c: Setup, sup: Sup, sh: Shared)
    requires sup.sh == sh && AtPC(c.check, sh, Idle) && LogNumbered(c.check, sh.log) && !sh.f.inProgress
    requires sup.pc.Idle? && sup.run.RunSelecting?
    ensures SupervisorInv(c, sup)
  {}

  /** Whatever the other goroutines do, Run's checks follow CheckProtocol. */
  lemma {:induction false} SupervisorHolds(c: Setup, callbacks: nat, acts: seq<Action>)
    requires Legal(c, Start(callbacks), acts)
    ensures SupervisorInv(c, Execute(c, Start(callbacks), acts).sup)
    decreases |acts|
  {
    if acts == [] {
      SupervisorStarts(c, Start(callbacks).sup);
    } else {
      SupervisorHolds(c, callbacks, acts[..|acts| - 1]);
      SupervisorStep(c, Execute(c, Start(callbacks), acts[..|acts| - 1]), acts[|acts| - 1]);
    }
  }

  /** The moment an action adds to the history, if any. */
  function Noted(s: State, a: Action): seq<Moment>
    requires Enabled(s, a)
  {
    match a
    case Cancel => []
    case Callback(i, _, _) => if s.callbacks[i].Committing? then [PayloadAccepted(s.callbacks[i].payload)] else []
    case Poll(_) => if s.loop.pc.Triggering? then [Triggered] else []
    case RunStep(_) =>
      if s.sup.run.RunReceived? && !s.sup.sh.f.inProgress && s.sup.pc.Idle? then [CheckEntered(s.sup.run.byTrigger)]
      else if s.sup.run.RunChecking? && s.sup.pc.Configuring? then [WiFiConfigured]
      else []
  }

  lemma CallbackNotes(c: Setup, s: State, i: nat, payload: string, now: int)
    requires i < |s.callbacks|
    ensures CallbackMove(c, s, i, payload, now).log == s.log + Noted(s, Callback(i, payload, now))
  {}

  lemma PollNotes(c: Setup, s: State, p: PollInput)
    requires PollEnabled(s, p)
    ensures PollMove(c, s, p).log == s.log + Noted(s, Poll(p))
  {}

  lemma RunNotes(c: Setup, s: State, r: RunInput)
    requires RunEnabled(s, r) && SupervisorInv(c, s.sup)
    ensures RunMove(c, s, r).log == s.log + Noted(s, RunStep(r))
  {}

  lemma StepNotes(c: Setup, s: State, a: Action)
    requires Enabled(s, a) && SupervisorInv(c, s.sup)
    ensures Apply(c, s, a).log == s.log + Noted(s, a)
  {
    match a
    case Cancel =>
    case Callback(i, payload, now) => CallbackNotes(c, s, i, payload, now);
    case Poll(p) => PollNotes(c, s, p);
    case RunStep(r) => RunNotes(c, s, r);
  }

  /** The attempt budget in the whole system: between two resets at most MaxRecoveryAttempts calls. */
  lemma SystemOutageBudget(c: Setup, callbacks: nat, acts: seq<Action>, i: nat, j: nat)
    requires Legal(c, Start(callbacks), acts)
    requires var log := Execute(c, Start(callbacks), acts).sup.sh.log;
             i <= j <= |log| && forall k :: i <= k < j ==> !log[k].Reset?
    ensures Calls(Execute(c, Start(callbacks), acts).sup.sh.log[i..j]) <= Max0(c.check.maxAttempts)
  {
    hide Execute, Legal, Start;
    SupervisorHolds(c, callbacks, acts);
    var log := Execute(c, Start(callbacks), acts).sup.sh.log;
    CallsAddUp(log, i, j);
    NumberedWithinBudget(c.check, log, j);
  }
}
