/** What the poll counters add up to, over whole runs of the exporter. */
module PollAccounting {
  import CheckProtocol
  import opened PollLoop
  import opened Recovery

  function Count(rs: seq<PollResult>, r: PollResult): nat {
    if rs == [] then 0 else Count(rs[..|rs| - 1], r) + if rs[|rs| - 1] == r then 1 else 0
  }

  function Unhealthy(rs: seq<PollResult>): nat {
    if rs == [] then 0 else Unhealthy(rs[..|rs| - 1]) + if rs[|rs| - 1].Healthy() then 0 else 1
  }

  lemma Snoc(rs: seq<PollResult>, r: PollResult)
    ensures forall x :: Count(rs + [r], x) == Count(rs, x) + (if r == x then 1 else 0)
  {
    assert (rs + [r])[..|rs|] == rs;
  }

  lemma {:induction false} CountsAddUp(rs: seq<PollResult>)
    ensures Count(rs, Responded) + Count(rs, FreshTelemetry) + Count(rs, PublishFailed) + Count(rs, TimedOut) == |rs|
    ensures Unhealthy(rs) == Count(rs, PublishFailed) + Count(rs, TimedOut)
  {
    if rs != [] { CountsAddUp(rs[..|rs| - 1]); }
  }

  /** A poll has been counted and its result not yet handed to handleResult. */
  function InFlight(pc: PollPC): nat {
    match pc
    case Publishing => 1 case PublishError => 1 case Awaiting => 1 case CheckingFreshness => 1
    case FallingBack => 1 case FallbackApplied => 1 case TimingOut => 1 case Lowering(_) => 1
    case Handling(_) => 1
    case _ => 0
  }

  function Carried(pc: PollPC, r: PollResult): nat {
    match pc
    case Lowering(x) => if x == r then 1 else 0
    case Handling(x) => if x == r then 1 else 0
    case _ => 0
  }

  ghost predicate ScrapesTallied(loop: Loop) {
    loop.n.scrapes == |loop.results| + loop.n.cancelled + InFlight(loop.pc)
  }

  ghost predicate TimeoutsTallied(loop: Loop) {
    loop.n.timeouts == Count(loop.results, TimedOut) + Carried(loop.pc, TimedOut)
  }

  ghost predicate PublishErrorsTallied(loop: Loop) {
    loop.n.publishErrors == Count(loop.results, PublishFailed) + Carried(loop.pc, PublishFailed)
  }

  ghost predicate ErrorsTallied(loop: Loop) {
    && loop.n.scrapeErrors == loop.n.timeouts + loop.n.publishErrors
    && loop.n.fallbacks <= loop.n.timeouts + (if loop.pc.TimingOut? then 1 else 0)
  }

  ghost predicate Tallied(loop: Loop) {
    ScrapesTallied(loop) && TimeoutsTallied(loop) && PublishErrorsTallied(loop) && ErrorsTallied(loop)
  }

  lemma LoopKeepsScrapes(c: Setup, loop: Loop, cache: Cache, p: PollInput)
    requires ScrapesTallied(loop)
    ensures ScrapesTallied(LoopMove(c, loop, cache, p))
  {}

  lemma LoopKeepsErrors(c: Setup, loop: Loop, cache: Cache, p: PollInput)
    requires ErrorsTallied(loop)
    ensures ErrorsTallied(LoopMove(c, loop, cache, p))
  {}

  lemma LoopKeepsTimeouts(c: Setup, loop: Loop, cache: Cache, p: PollInput)
    requires TimeoutsTallied(loop)
    ensures TimeoutsTallied(LoopMove(c, loop, cache, p))
  {
    hide FreshPayload, Handle, Count;
    if loop.pc.Handling? { Snoc(loop.results, loop.pc.r); }
  }

  lemma LoopKeepsPublishErrors(c: Setup, loop: Loop, cache: Cache, p: PollInput)
    requires PublishErrorsTallied(loop)
    ensures PublishErrorsTallied(LoopMove(c, loop, cache, p))
  {
    hide FreshPayload, Handle, Count;
    if loop.pc.Handling? { Snoc(loop.results, loop.pc.r); }
  }

  lemma LoopKeepsTally(c: Setup, loop: Loop, cache: Cache, p: PollInput)
    requires Tallied(loop)
    ensures Tallied(LoopMove(c, loop, cache, p))
  {
    var loop' := LoopMove(c, loop, cache, p);
    assert ScrapesTallied(loop') by { LoopKeepsScrapes(c, loop, cache, p); }
    assert TimeoutsTallied(loop') by { LoopKeepsTimeouts(c, loop, cache, p); }
    assert PublishErrorsTallied(loop') by { LoopKeepsPublishErrors(c, loop, cache, p); }
    assert ErrorsTallied(loop') by { LoopKeepsErrors(c, loop, cache, p); }
  }

  const NONE := Misses(0, false)

  /** The results whose handling is complete: all but the one being handled. */
  function Done(loop: Loop): seq<PollResult> {
    if (loop.pc.EnablingRecovery? || loop.pc.Counting?) && loop.results != [] then loop.results[..|loop.results| - 1]
    else loop.results
  }

  function TriggerCalls(log: seq<Moment>): nat {
    if log == [] then 0 else TriggerCalls(log[..|log| - 1]) + if log[|log| - 1].Triggered? then 1 else 0
  }

  ghost predicate MissesFollow(c: Setup, loop: Loop) {
    && (loop.pc.EnablingRecovery? || loop.pc.Counting? ==>
          loop.results != [] && loop.results[|loop.results| - 1] == loop.pc.r)
    && loop.misses == After(NONE, Done(loop), c.threshold)
  }

  ghost predicate TriggersFollow(c: Setup, loop: Loop, calls: nat) {
    Triggers(NONE, Done(loop), c.threshold) == calls + if loop.pc.Triggering? then 1 else 0
  }

  lemma LoopKeepsMisses(c: Setup, loop: Loop, cache: Cache, p: PollInput, calls: nat)
    requires MissesFollow(c, loop) && TriggersFollow(c, loop, calls)
    ensures var loop' := LoopMove(c, loop, cache, p);
            MissesFollow(c, loop') && TriggersFollow(c, loop', calls + if loop.pc.Triggering? then 1 else 0)
  {
    var loop' := LoopMove(c, loop, cache, p);
    match loop.pc
    case Handling(r) => assert loop'.results[..|loop.results|] == loop.results;
    case Counting(r) =>
      TriggersSnoc(NONE, Done(loop), r, c.threshold);
      assert loop.results == Done(loop) + [r];
    case _ =>
  }

  ghost predicate AccountInv(c: Setup, s: State) {
    Tallied(s.loop) && MissesFollow(c, s.loop) && TriggersFollow(c, s.loop, TriggerCalls(s.log))
  }

  lemma TriggerCallsSnoc(log: seq<Moment>, e: seq<Moment>)
    requires |e| <= 1
    ensures TriggerCalls(log + e) == TriggerCalls(log) + if e != [] && e[0].Triggered? then 1 else 0
  {
    if e == [] {
      assert log + e == log;
    } else {
      assert (log + e)[..|log|] == log;
    }
  }

  /** A step notes a TriggerCheck exactly when the poll loop makes one. */
  lemma StepTriggers(c: Setup, s: State, a: Action)
    requires SupervisorInv(c, s.sup) && Enabled(s, a)
    ensures TriggerCalls(Apply(c, s, a).log) ==
            TriggerCalls(s.log) + if a.Poll? && s.loop.pc.Triggering? then 1 else 0
  {
    hide TriggerCalls, Apply, SupervisorInv;
    StepNotes(c, s, a);
    TriggerCallsSnoc(s.log, Noted(s, a));
  }

  lemma OthersKeepLoop(c: Setup, s: State, a: Action)
    requires Enabled(s, a) && !a.Poll?
    ensures Apply(c, s, a).loop == s.loop
  {}

  lemma PollMovesLoop(c: Setup, s: State, p: PollInput)
    requires Enabled(s, Poll(p))
    ensures Apply(c, s, Poll(p)).loop == LoopMove(c, s.loop, s.cache, p)
  {
    hide LoopMove, CacheMove, WiresMove;
  }

  lemma AccountStep(c: Setup, s: State, a: Action)
    requires AccountInv(c, s) && SupervisorInv(c, s.sup) && Enabled(s, a)
    ensures AccountInv(c, Apply(c, s, a))
  {
    hide Apply, LoopMove, SupervisorInv, Enabled, Tallied, MissesFollow, TriggersFollow, TriggerCalls;
    StepTriggers(c, s, a);
    if a.Poll? {
      PollMovesLoop(c, s, a.p);
      LoopKeepsTally(c, s.loop, s.cache, a.p);
      LoopKeepsMisses(c, s.loop, s.cache, a.p, TriggerCalls(s.log));
    } else {
      OthersKeepLoop(c, s, a);
    }
  }

  lemma AccountStarts(c: Setup, s: State)
    requires s.loop.results == [] && s.loop.pc.StartDraining? && s.loop.n == Counters(0, 0, 0, 0, 0, 0)
    requires s.loop.misses == NONE && s.log == []
    ensures AccountInv(c, s)
  {
    assert Tallied(s.loop) && MissesFollow(c, s.loop) && TriggersFollow(c, s.loop, 0);
  }

  lemma {:induction false} AccountHolds(c: Setup, callbacks: nat, acts: seq<Action>)
    requires Legal(c, Start(callbacks), acts)
    ensures AccountInv(c, Execute(c, Start(callbacks), acts))
    decreases |acts|
  {
    if acts == [] {
      AccountStarts(c, Start(callbacks));
    } else {
      var before := acts[..|acts| - 1];
      AccountHolds(c, callbacks, before);
      SupervisorHolds(c, callbacks, before);
      AccountStep(c, Execute(c, Start(callbacks), before), acts[|acts| - 1]);
    }
  }

  /** At poll boundaries the scrapes split into the five outcomes, and the error counters into theirs. */
  lemma PollsAddUp(c: Setup, callbacks: nat, acts: seq<Action>)
    requires Legal(c, Start(callbacks), acts)
    requires var pc := Execute(c, Start(callbacks), acts).loop.pc; pc.Ticking? || pc.PollStopped?
    ensures var loop := Execute(c, Start(callbacks), acts).loop;
            var rs := loop.results;
            && loop.n.scrapes == Count(rs, Responded) + Count(rs, FreshTelemetry) + Count(rs, PublishFailed)
                                 + Count(rs, TimedOut) + loop.n.cancelled
            && loop.n.scrapeErrors == loop.n.timeouts + loop.n.publishErrors == Unhealthy(rs)
            && loop.n.timeouts == Count(rs, TimedOut) && loop.n.publishErrors == Count(rs, PublishFailed)
            && loop.n.fallbacks <= loop.n.timeouts
  {
    hide Execute, Legal, Start;
    AccountHolds(c, callbacks, acts);
    CountsAddUp(Execute(c, Start(callbacks), acts).loop.results);
  }

  /** In the running system, too, the TriggerCheck calls are those of the unhealthy runs. */
  lemma TriggersOfWholeRun(c: Setup, callbacks: nat, acts: seq<Action>)
    requires Legal(c, Start(callbacks), acts)
    requires var pc := Execute(c, Start(callbacks), acts).loop.pc; pc.Ticking? || pc.PollStopped?
    ensures var s := Execute(c, Start(callbacks), acts);
            TriggerCalls(s.log) == SumOverRuns(FromFirstHealthy(s.loop.results), Effective(c.threshold))
  {
    hide Execute, Legal, Start;
    AccountHolds(c, callbacks, acts);
    ExactTriggerCount(Execute(c, Start(callbacks), acts).loop.results, c.threshold);
  }

  // ---------------------------------------------------------------------------------------------
  // When recovery is enabled

  /** Some result says the device was heard. */
  ghost predicate AnyHeard(rs: seq<PollResult>) {
    exists i :: 0 <= i < |rs| && (rs[i] == Responded || rs[i] == FreshTelemetry)
  }

  lemma HeardSnoc(rs: seq<PollResult>, r: PollResult)
    ensures AnyHeard(rs + [r]) <==> AnyHeard(rs) || r == Responded || r == FreshTelemetry
  {
    if AnyHeard(rs) {
      var i :| 0 <= i < |rs| && (rs[i] == Responded || rs[i] == FreshTelemetry);
      assert (rs + [r])[i] == rs[i];
    }
    assert (rs + [r])[|rs|] == r;
  }

  ghost predicate GateInv(s: State) {
    var rs := s.loop.results;
    if s.loop.pc.EnablingRecovery? then
      && rs != [] && (rs[|rs| - 1] == Responded || rs[|rs| - 1] == FreshTelemetry)
      && (s.sup.sh.f.enabled <==> AnyHeard(rs[..|rs| - 1]))
    else s.sup.sh.f.enabled <==> AnyHeard(rs)
  }

  lemma PollKeepsGate(c: Setup, s: State, p: PollInput)
    requires GateInv(s) && PollEnabled(s, p)
    ensures GateInv(PollMove(c, s, p))
  {
    hide AnyHeard, CacheMove, WiresMove;
    var s' := PollMove(c, s, p);
    var rs := s.loop.results;
    match s.loop.pc
    case Handling(r) =>
      HeardSnoc(rs, r);
      assert s'.loop.results == rs + [r] && s'.loop.results[..|rs|] == rs;
    case EnablingRecovery(r) =>
      HeardSnoc(rs[..|rs| - 1], rs[|rs| - 1]);
      assert rs[..|rs| - 1] + [rs[|rs| - 1]] == rs;
    case _ =>
  }

  lemma RunKeepsGate(c: Setup, s: State, r: RunInput)
    requires GateInv(s) && RunEnabled(s, r)
    ensures GateInv(RunMove(c, s, r))
  {
    hide AnyHeard;
    if !s.sup.run.RunSelecting? {
      var input := if s.sup.run.RunReceived? then CheckProtocol.GiveUp else r.input;
      CheckProtocol.MoveKeepsEnabled(c.check, s.sup.sh, 0, s.sup.pc, input);
    }
  }

  lemma StepKeepsGate(c: Setup, s: State, a: Action)
    requires GateInv(s) && Enabled(s, a)
    ensures GateInv(Apply(c, s, a))
  {
    hide AnyHeard, PollMove, RunMove, PollEnabled, RunEnabled;
    match a
    case Cancel =>
    case Callback(i, payload, now) =>
    case Poll(p) => PollKeepsGate(c, s, p);
    case RunStep(r) => RunKeepsGate(c, s, r);
  }

  lemma {:induction false} GateHolds(c: Setup, callbacks: nat, acts: seq<Action>)
    requires Legal(c, Start(callbacks), acts)
    ensures GateInv(Execute(c, Start(callbacks), acts))
    decreases |acts|
  {
    hide GateInv, Apply, Enabled;
    if acts == [] {
      GateStarts(Start(callbacks));
    } else {
      var before := acts[..|acts| - 1];
      GateHolds(c, callbacks, before);
      StepKeepsGate(c, Execute(c, Start(callbacks), before), acts[|acts| - 1]);
    }
  }

  lemma GateStarts(s: State)
    requires s.loop.results == [] && s.loop.pc.StartDraining? && !s.sup.sh.f.enabled
    ensures GateInv(s)
  {}

  /** Between polls recovery is enabled exactly if some poll so far was answered or found fresh telemetry. */
  lemma GateExact(c: Setup, callbacks: nat, acts: seq<Action>)
    requires Legal(c, Start(callbacks), acts)
    requires var pc := Execute(c, Start(callbacks), acts).loop.pc; pc.Ticking? || pc.PollStopped?
    ensures var s := Execute(c, Start(callbacks), acts);
            var rs := s.loop.results;
            s.sup.sh.f.enabled <==> exists i :: 0 <= i < |rs| && (rs[i] == Responded || rs[i] == FreshTelemetry)
  {
    hide Execute, Legal, Start;
    GateHolds(c, callbacks, acts);
  }
}
