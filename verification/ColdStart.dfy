/** Cold-start safety: Wi-Fi is never reconfigured before the device has been heard over MQTT. */
module ColdStart {
  import opened Options
  import CheckProtocol
  import MetricCache
  import PayloadParser
  import opened PollLoop
  import opened Recovery

  /** A payload that Collector.Update accepted was committed before position `i` of the history. */
  ghost predicate Heard(c: Setup, log: seq<Moment>, i: nat) {
    exists j :: 0 <= j < i && j < |log| && log[j].PayloadAccepted? && c.accepts(log[j].payload)
  }

  ghost predicate Gated(c: Setup, log: seq<Moment>) {
    forall i :: 0 <= i < |log| && log[i].WiFiConfigured? ==> Heard(c, log, i)
  }

  lemma HeardStays(c: Setup, log: seq<Moment>, more: seq<Moment>, i: nat, k: nat)
    requires Heard(c, log, i) && i <= k
    ensures Heard(c, log + more, k)
  {
    var j :| 0 <= j < i && j < |log| && log[j].PayloadAccepted? && c.accepts(log[j].payload);
    assert (log + more)[j] == log[j];
  }

  lemma GatedSnoc(c: Setup, log: seq<Moment>, e: Moment)
    requires Gated(c, log) && (e.WiFiConfigured? ==> Heard(c, log, |log|))
    ensures Gated(c, log + [e])
    ensures Heard(c, log, |log|) || (e.PayloadAccepted? && c.accepts(e.payload)) ==> Heard(c, log + [e], |log| + 1)
  {
    forall i | 0 <= i < |log + [e]| && (log + [e])[i].WiFiConfigured? ensures Heard(c, log + [e], i) {
      HeardStays(c, log, [e], i, i);
    }
    if Heard(c, log, |log|) { HeardStays(c, log, [e], |log|, |log| + 1); }
    assert (log + [e])[|log|] == e;
  }

  predicate CarriesHealthy(poll: PollPC) {
    match poll
    case Lowering(r) => r.Healthy()
    case Handling(r) => r.Healthy()
    case EnablingRecovery(r) => r.Healthy()
    case Counting(r) => r.Healthy()
    case _ => false
  }

  /** Nothing but an accepted payload counts as fresh telemetry. */
  predicate Strict(c: Setup) { !c.fallback || c.window < 0 }

  /** Every token of health in the system goes back to an accepted payload. */
  ghost predicate SignalsEarned(c: Setup, s: State, heard: bool) {
    && (s.loop.pc.FallingBack? ==> c.fallback)
    && (s.loop.pc.EnablingRecovery? ==> s.loop.pc.r.Healthy())
    && (!c.fallback && s.cache.lastUpdateAt.Some? ==> heard)
    && (s.wires.response || CarriesHealthy(s.loop.pc) || s.sup.sh.f.enabled ==> heard)
  }

  ghost predicate CallbacksEarned(c: Setup, callbacks: seq<CallbackPC>, heard: bool) {
    && (forall i :: 0 <= i < |callbacks| && callbacks[i].Committing? ==> c.accepts(callbacks[i].payload))
    && (forall i :: 0 <= i < |callbacks| && (callbacks[i].Raising? || callbacks[i].Signalling?) ==> heard)
  }

  ghost predicate TokensEarned(c: Setup, s: State, heard: bool) {
    SignalsEarned(c, s, heard) && CallbacksEarned(c, s.callbacks, heard)
  }

  ghost predicate ColdInv(c: Setup, s: State) {
    TokensEarned(c, s, Heard(c, s.log, |s.log|)) && Gated(c, s.log)
  }

  lemma CallbackEarns(c: Setup, s: State, i: nat, payload: string, now: int, heard: bool)
    requires TokensEarned(c, s, heard) && i < |s.callbacks|
    ensures TokensEarned(c, CallbackMove(c, s, i, payload, now), heard || s.callbacks[i].Committing?)
  {}

  lemma PollFrame(c: Setup, s: State, p: PollInput)
    requires PollEnabled(s, p)
    ensures PollMove(c, s, p).callbacks == s.callbacks
  {}

  /** Where a healthy result can come from. */
  lemma PollHealthOrigin(c: Setup, s: State, p: PollInput)
    requires PollEnabled(s, p)
    ensures CarriesHealthy(PollMove(c, s, p).loop.pc) ==>
            CarriesHealthy(s.loop.pc) || (s.loop.pc.Awaiting? && s.wires.response)
            || (s.loop.pc.CheckingFreshness? && c.window >= 0 && s.cache.lastUpdateAt.Some?)
  {}

  lemma PollSignals(c: Setup, s: State, p: PollInput)
    requires PollEnabled(s, p)
    ensures var s' := PollMove(c, s, p);
            && (s'.loop.pc.FallingBack? ==> c.fallback)
            && (s'.loop.pc.EnablingRecovery? ==> s'.loop.pc.r.Healthy())
            && (s'.wires.response ==> s.wires.response)
            && (s'.cache.lastUpdateAt.Some? ==> s.cache.lastUpdateAt.Some? || s.loop.pc.FallingBack?)
            && (s'.sup.sh.f.enabled ==> s.sup.sh.f.enabled || s.loop.pc.EnablingRecovery?)
  {}

  lemma PollEarnsSignals(c: Setup, s: State, p: PollInput, heard: bool)
    requires SignalsEarned(c, s, heard) && Strict(c) && PollEnabled(s, p)
    ensures SignalsEarned(c, PollMove(c, s, p), heard)
  {
    PollHealthOrigin(c, s, p);
    PollSignals(c, s, p);
  }

  lemma PollEarns(c: Setup, s: State, p: PollInput, heard: bool)
    requires TokensEarned(c, s, heard) && Strict(c) && PollEnabled(s, p)
    ensures TokensEarned(c, PollMove(c, s, p), heard)
  {
    PollEarnsSignals(c, s, p, heard);
    PollFrame(c, s, p);
  }

  lemma RunFrame(c: Setup, s: State, r: RunInput)
    requires RunEnabled(s, r)
    ensures var s' := RunMove(c, s, r);
            s' == s.(sup := s'.sup, wires := s.wires.(trigger := s'.wires.trigger), log := s'.log)
  {}

  lemma RunKeepsEnabled(c: Setup, s: State, r: RunInput)
    requires RunEnabled(s, r)
    ensures RunMove(c, s, r).sup.sh.f.enabled == s.sup.sh.f.enabled
  {
    if !s.sup.run.RunSelecting? {
      var input := if s.sup.run.RunReceived? then CheckProtocol.GiveUp else r.input;
      CheckProtocol.MoveKeepsEnabled(c.check, s.sup.sh, 0, s.sup.pc, input);
    }
  }

  lemma RunEarns(c: Setup, s: State, r: RunInput, heard: bool)
    requires TokensEarned(c, s, heard) && RunEnabled(s, r)
    ensures TokensEarned(c, RunMove(c, s, r), heard)
  {
    RunFrame(c, s, r);
    RunKeepsEnabled(c, s, r);
  }

  lemma StepEarns(c: Setup, s: State, a: Action, heard: bool)
    requires TokensEarned(c, s, heard) && Strict(c) && Enabled(s, a)
    ensures TokensEarned(c, Apply(c, s, a), heard || (a.Callback? && s.callbacks[a.i].Committing?))
  {
    match a
    case Cancel =>
    case Callback(i, payload, now) => CallbackEarns(c, s, i, payload, now, heard);
    case Poll(p) => PollEarns(c, s, p, heard);
    case RunStep(r) => RunEarns(c, s, r, heard);
  }

  lemma NoteGated(c: Setup, s: State, a: Action)
    requires ColdInv(c, s) && SupervisorInv(c, s.sup) && Enabled(s, a)
    ensures var log := s.log + Noted(s, a);
            && Gated(c, log)
            && (Heard(c, s.log, |s.log|) || (a.Callback? && s.callbacks[a.i].Committing?) ==> Heard(c, log, |log|))
  {
    var e := Noted(s, a);
    if e == [] {
      assert s.log + e == s.log;
    } else {
      assert e == [e[0]];
      GatedSnoc(c, s.log, e[0]);
    }
  }

  lemma StepKeepsCold(c: Setup, s: State, a: Action)
    requires ColdInv(c, s) && SupervisorInv(c, s.sup) && Strict(c) && Enabled(s, a)
    ensures ColdInv(c, Apply(c, s, a))
  {
    StepNotes(c, s, a);
    StepEarns(c, s, a, Heard(c, s.log, |s.log|));
    NoteGated(c, s, a);
    EarnedMore(c, Apply(c, s, a), Heard(c, s.log, |s.log|) || (a.Callback? && s.callbacks[a.i].Committing?));
  }

  lemma EarnedMore(c: Setup, s: State, heard: bool)
    requires TokensEarned(c, s, heard) && (heard ==> Heard(c, s.log, |s.log|)) && Gated(c, s.log)
    ensures ColdInv(c, s)
  {}

  lemma {:induction false} ColdHolds(c: Setup, callbacks: nat, acts: seq<Action>)
    requires Strict(c) && Legal(c, Start(callbacks), acts)
    ensures ColdInv(c, Execute(c, Start(callbacks), acts))
    decreases |acts|
  {
    if acts != [] {
      var before := acts[..|acts| - 1];
      ColdHolds(c, callbacks, before);
      SupervisorHolds(c, callbacks, before);
      StepKeepsCold(c, Execute(c, Start(callbacks), before), acts[|acts| - 1]);
    }
  }

  ghost predicate NeverConfigured(log: seq<Moment>) {
    forall i :: 0 <= i < |log| ==> !log[i].WiFiConfigured?
  }

  lemma ConfiguringNeeds(c: Setup, s: State)
    requires SupervisorInv(c, s.sup) && s.sup.pc.Configuring?
    ensures c.check.maxAttempts >= 1 && c.check.hasWiFi
  {}

  lemma {:induction false} NeverConfigures(c: Setup, callbacks: nat, acts: seq<Action>)
    requires c.check.maxAttempts < 1 || !c.check.hasWiFi
    requires Legal(c, Start(callbacks), acts)
    ensures NeverConfigured(Execute(c, Start(callbacks), acts).log)
    decreases |acts|
  {
    if acts != [] {
      var before := acts[..|acts| - 1];
      var s := Execute(c, Start(callbacks), before);
      NeverConfigures(c, callbacks, before);
      SupervisorHolds(c, callbacks, before);
      StepNotes(c, s, acts[|acts| - 1]);
      if s.sup.pc.Configuring? { ConfiguringNeeds(c, s); }
    }
  }

  /** Over every interleaving, each ConfigureWiFi call comes after a device payload that
      Collector.Update accepted. */
  ghost predicate ColdStartSafe(c: Setup, callbacks: nat) {
    forall acts :: Legal(c, Start(callbacks), acts) ==> Gated(c, Execute(c, Start(callbacks), acts).log)
  }

  // ---------------------------------------------------------------------------------------------
  // The run that breaks it when the fallback is enabled: one poll times out and is filled in from
  // the ESP32, the next finds that data fresh and enables recovery, and a check then reconfigures.

  /** From draining to the response timeout. */
  lemma PollUntilTimeout(c: Setup, s0: State, acts: seq<Action>, s: State) returns (more: seq<Action>, s': State)
    requires Legal(c, s0, acts) && Execute(c, s0, acts) == s && s.loop.pc.Draining?
    ensures Legal(c, s0, more) && Execute(c, s0, more) == s'
    ensures s'.loop.pc.CheckingFreshness? && s'.loop.misses == s.loop.misses
    ensures s'.cache == s.cache && s'.sup == s.sup && s'.log == s.log
  {
    hide Legal, Execute;
    more, s' := Then(c, s0, acts, s, Poll(Go));
    more, s' := Then(c, s0, more, s', Poll(Go));
    more, s' := Then(c, s0, more, s', Poll(Go));
    more, s' := Then(c, s0, more, s', Poll(Timer));
  }

  /** From the response timeout to the fallback's update of the cache. */
  lemma FallBackNow(c: Setup, s0: State, before: seq<Action>, s: State) returns (acts: seq<Action>, s': State)
    requires c.fallback && Legal(c, s0, before) && Execute(c, s0, before) == s
    requires s.loop.pc.CheckingFreshness? && s.cache.lastUpdateAt.None?
    ensures Legal(c, s0, acts) && Execute(c, s0, acts) == s'
    ensures s'.loop.pc.TimingOut? && s'.loop.misses == s.loop.misses
    ensures s'.cache.lastUpdateAt == Some(0) && s'.sup == s.sup && s'.log == s.log
  {
    hide Legal, Execute;
    acts, s' := Then(c, s0, before, s, Poll(Clock(0)));
    acts, s' := Then(c, s0, acts, s', Poll(Clock(0)));
    acts, s' := Then(c, s0, acts, s', Poll(Go));
  }

  lemma FinishTimeout(c: Setup, s0: State, before: seq<Action>, s: State) returns (acts: seq<Action>, s': State)
    requires Legal(c, s0, before) && Execute(c, s0, before) == s
    requires s.loop.pc.TimingOut? && s.loop.misses == Misses(0, false)
    ensures Legal(c, s0, acts) && Execute(c, s0, acts) == s'
    ensures s'.loop.pc.Ticking? && s'.loop.misses == Misses(0, false)
    ensures s'.cache.lastUpdateAt == s.cache.lastUpdateAt && s'.sup == s.sup && s'.log == s.log
  {
    hide Legal, Execute;
    acts, s' := Then(c, s0, before, s, Poll(Go));
    acts, s' := Then(c, s0, acts, s', Poll(Go));
    acts, s' := Then(c, s0, acts, s', Poll(Go));
    acts, s' := Then(c, s0, acts, s', Poll(Go));
  }

  lemma FallbackPoll(c: Setup, callbacks: nat) returns (acts: seq<Action>, s: State)
    requires c.fallback
    ensures Legal(c, Start(callbacks), acts) && Execute(c, Start(callbacks), acts) == s
    ensures s.loop.pc.Ticking? && s.loop.misses == Misses(0, false)
    ensures s.cache.lastUpdateAt == Some(0) && s.sup == Start(callbacks).sup && s.log == []
  {
    var s0 := Start(callbacks);
    acts, s := Then(c, s0, [], s0, Poll(Go));
    acts, s := PollUntilTimeout(c, s0, acts, s);
    acts, s := FallBackNow(c, s0, acts, s);
    acts, s := FinishTimeout(c, s0, acts, s);
  }

  lemma FreshPoll(c: Setup, s0: State, before: seq<Action>, s: State) returns (acts: seq<Action>, s': State)
    requires Legal(c, s0, before) && Execute(c, s0, before) == s && c.window >= 0
    requires s.loop.pc.Ticking? && s.loop.misses == Misses(0, false) && s.cache.lastUpdateAt == Some(0)
    requires s.sup.sh == CheckProtocol.FRESH
    ensures Legal(c, s0, acts) && Execute(c, s0, acts) == s'
    ensures s'.sup == EnabledSup(s.sup) && s'.log == s.log
  {
    hide Legal, Execute;
    acts, s' := Then(c, s0, before, s, Poll(Go));
    acts, s' := PollUntilTimeout(c, s0, acts, s');
    acts, s' := Then(c, s0, acts, s', Poll(Clock(0)));
    acts, s' := Then(c, s0, acts, s', Poll(Go));
    acts, s' := Then(c, s0, acts, s', Poll(Go));
  }

  const DOWN := Bridge(CheckProtocol.Answer(CheckProtocol.Status(true, false, false)))

  lemma CheckUntilGate(c: Setup, s0: State, before: seq<Action>, s: State) returns (acts: seq<Action>, s': State)
    requires Legal(c, s0, before) && Execute(c, s0, before) == s && c.check.hasWiFi
    requires s.sup.run.RunSelecting? && s.sup.pc.Idle? && !s.sup.sh.mutex && !s.sup.sh.f.inProgress
    ensures Legal(c, s0, acts) && Execute(c, s0, acts) == s'
    ensures s'.sup.pc == CheckProtocol.Gating && s'.sup.run.RunChecking? && !s'.sup.sh.mutex
    ensures s'.sup.sh.f == s.sup.sh.f.(inProgress := true) && s'.log == s.log + [CheckEntered(false)]
  {
    hide Legal, Execute;
    acts, s' := Then(c, s0, before, s, RunStep(Ticker));
    acts, s' := Then(c, s0, acts, s', RunStep(Ticker));
    acts, s' := Then(c, s0, acts, s', RunStep(DOWN));
  }

  lemma CheckUntilCounted(c: Setup, s0: State, before: seq<Action>, s: State) returns (acts: seq<Action>, s': State)
    requires Legal(c, s0, before) && Execute(c, s0, before) == s && c.check.maxAttempts >= 1
    requires s.sup.run.RunChecking? && s.sup.pc.Gating? && !s.sup.sh.mutex
    requires s.sup.sh.f == CheckProtocol.Fields(0, true, true, false)
    ensures Legal(c, s0, acts) && Execute(c, s0, acts) == s'
    ensures s'.sup.pc.Counted? && s'.sup.run.RunChecking? && !s'.sup.sh.mutex && s'.log == s.log
  {
    hide Legal, Execute;
    acts, s' := Then(c, s0, before, s, RunStep(DOWN));
    acts, s' := Then(c, s0, acts, s', RunStep(DOWN));
    acts, s' := Then(c, s0, acts, s', RunStep(DOWN));
  }

  lemma RecoveringCheck(c: Setup, s0: State, before: seq<Action>, s: State) returns (acts: seq<Action>, s': State)
    requires Legal(c, s0, before) && Execute(c, s0, before) == s && c.check.maxAttempts >= 1 && c.check.hasWiFi
    requires s.sup.run.RunSelecting? && s.sup.pc.Idle? && !s.sup.sh.mutex
    requires s.sup.sh.f == CheckProtocol.Fields(0, true, false, false)
    ensures Legal(c, s0, acts) && Execute(c, s0, acts) == s'
    ensures s'.log == s.log + [CheckEntered(false), WiFiConfigured]
  {
    hide Legal, Execute;
    acts, s' := CheckUntilGate(c, s0, before, s);
    acts, s' := CheckUntilCounted(c, s0, acts, s');
    acts, s' := Then(c, s0, acts, s', RunStep(DOWN));
    acts, s' := Then(c, s0, acts, s', RunStep(DOWN));
    assert s.log + [CheckEntered(false)] + [WiFiConfigured] == s.log + [CheckEntered(false), WiFiConfigured];
  }

  lemma FallbackReaches(c: Setup, callbacks: nat) returns (acts: seq<Action>)
    requires c.fallback && c.window >= 0 && c.check.maxAttempts >= 1 && c.check.hasWiFi
    ensures Legal(c, Start(callbacks), acts)
    ensures Execute(c, Start(callbacks), acts).log == [CheckEntered(false), WiFiConfigured]
  {
    var s: State;
    acts, s := FallbackPoll(c, callbacks);
    acts, s := FreshPoll(c, Start(callbacks), acts, s);
    acts, s := RecoveringCheck(c, Start(callbacks), acts, s);
  }

  /** Cold-start safety holds for exactly the configurations in which data from the ESP32 cannot pass
      for fresh telemetry (fallback disabled, as by default) or no recovery is ever attempted. */
  lemma ColdStartSafeIff(c: Setup, callbacks: nat)
    ensures ColdStartSafe(c, callbacks) <==>
            (!c.fallback || c.window < 0 || c.check.maxAttempts < 1 || !c.check.hasWiFi)
  {
    if !c.fallback || c.window < 0 {
      forall acts | Legal(c, Start(callbacks), acts) ensures Gated(c, Execute(c, Start(callbacks), acts).log) {
        ColdHolds(c, callbacks, acts);
      }
    } else if c.check.maxAttempts < 1 || !c.check.hasWiFi {
      forall acts | Legal(c, Start(callbacks), acts) ensures Gated(c, Execute(c, Start(callbacks), acts).log) {
        NeverConfigures(c, callbacks, acts);
      }
    } else {
      var acts := FallbackReaches(c, callbacks);
      var log := Execute(c, Start(callbacks), acts).log;
      assert log[1].WiFiConfigured? && !Heard(c, log, 1);
    }
  }

  /** The setup in which Collector.Update is the collector's own. */
  function DeviceSetup(check: CheckProtocol.Config, threshold: int, window: int, fallback: bool,
                       isFloat: MetricCache.FloatSyntax): Setup {
    Setup(check, threshold, window, fallback, payload => MetricCache.Accepts(isFloat, payload))
  }

  /** With the fallback disabled, every ConfigureWiFi call is preceded by a device payload with a
      usable number in one of the fields the exporter knows. */
  lemma ConfigureNeedsDeviceField(check: CheckProtocol.Config, threshold: int, window: int,
                                  isFloat: MetricCache.FloatSyntax, callbacks: nat, acts: seq<Action>, i: nat)
    requires var c := DeviceSetup(check, threshold, window, false, isFloat);
             && Legal(c, Start(callbacks), acts)
             && i < |Execute(c, Start(callbacks), acts).log|
             && Execute(c, Start(callbacks), acts).log[i].WiFiConfigured?
    ensures var log := Execute(DeviceSetup(check, threshold, window, false, isFloat), Start(callbacks), acts).log;
            exists j, r :: 0 <= j < i && 0 <= r < |MetricCache.RULES| && log[j].PayloadAccepted? &&
              MetricCache.Usable(isFloat, PayloadParser.Parsed(log[j].payload), MetricCache.RULES[r])
  {
    var c := DeviceSetup(check, threshold, window, false, isFloat);
    ColdHolds(c, callbacks, acts);
    var log := Execute(c, Start(callbacks), acts).log;
    assert Heard(c, log, i);
    var j :| 0 <= j < i && j < |log| && log[j].PayloadAccepted? && c.accepts(log[j].payload);
    MetricCache.AcceptsIff(isFloat, log[j].payload);
  }
}
