/** runPoll and handleDevicePayload of main.go as the code they are, working on the Collector, each
proved to take exactly the steps Recovery gives the poll loop and the MQTT callback. */
module PollRound {
  import opened Options
  import opened MetricCache
  import opened PollLoop
  import R = Recovery

  datatype Ending = Answered | TimerFired | Stopped

  /** What one poll meets: whether publishing works, what ends the wait, the clock when the timer has
      fired, and what the ESP32 offers at what time, if anything. */
  datatype Round = Round(published: bool, ending: Ending, now: int, offered: Option<(seq<Sample>, int)>)

  predicate Applies(round: Round) { round.offered.Some? && Known(round.offered.value.0) != [] }

  function InputAt(pc: R.PollPC, round: Round): R.PollInput {
    match pc
    case Publishing => if round.published then R.Go else R.Fail
    case Awaiting =>
      (match round.ending case Answered => R.Go case TimerFired => R.Timer case Stopped => R.Done)
    case CheckingFreshness => R.Clock(round.now)
    case FallingBack => if Applies(round) then R.Clock(round.offered.value.1) else R.Fail
    case _ => R.Go
  }

  /** Steps left until the result is handed over or the loop has stopped. */
  function Rank(pc: R.PollPC): nat {
    match pc
    case StartDraining => 10 case Draining => 9 case Scraping => 8 case Publishing => 7 case PublishError => 6
    case Awaiting => 5 case CheckingFreshness => 4 case FallingBack => 3 case FallbackApplied => 2
    case TimingOut => 1 case _ => 0
  }

  /** The poll loop's steps from `loop.pc` to the handling of the result. */
  function Drive(c: R.Setup, loop: R.Loop, cache: R.Cache, round: Round): (R.Loop, R.Cache)
    decreases Rank(loop.pc), if loop.pc.Lowering? then 1 else 0
  {
    if Rank(loop.pc) == 0 && !loop.pc.Lowering? then (loop, cache)
    else
      var p := InputAt(loop.pc, round);
      Drive(c, R.LoopMove(c, loop, cache, p), R.CacheMove(loop, cache, p), round)
  }

  function CountersOf(coll: Collector, cancelled: nat): R.Counters
    reads coll
  {
    R.Counters(coll.scrapesTotal, coll.scrapeErrorsTotal, coll.pollTimeoutsTotal, coll.pollPublishErrorsTotal,
               coll.esp32FallbackUpdates, cancelled)
  }

  /** The counters after so many time-outs and publish errors more. */
  function Failing(n: R.Counters, timeouts: nat, publishErrors: nat): R.Counters {
    n.(scrapeErrors := n.scrapeErrors + timeouts + publishErrors, timeouts := n.timeouts + timeouts,
       publishErrors := n.publishErrors + publishErrors)
  }

  /** A payload no older than the window. */
  predicate IsFresh(at: Option<int>, window: int, now: int) { at.Some? && window >= 0 && now - at.value <= window }

  function CacheOf(coll: Collector): R.Cache
    reads coll
  {
    R.Cache(coll.lastUpdateAt, coll.up)
  }

  /** The one-slot channel responseCh, holding a token or not. */
  class ResponseChannel {
    var token: bool

    constructor ()
      ensures !token
    {
      token := false;
    }

    /** The select that takes a stale token, if there is one. */
    method Drain()
      modifies this
      ensures !token
    {
      if token { token := false; }
    }

    /** Sending with a default case: a second token is dropped. */
    method Signal()
      modifies this
      ensures token
    {
      if !token { token := true; }
    }
  }

  /** Where the poll loop stands after a poll with this outcome; None is a cancelled context. */
  function AfterPoll(r: Option<PollResult>): R.PollPC { if r.Some? then R.Handling(r.value) else R.PollStopped }

  /** The failing end of a poll. */
  method GiveUpPoll(c: R.Setup, coll: Collector, ghost loop: R.Loop, ghost round: Round)
    requires loop.pc.TimingOut? && loop.n == CountersOf(coll, loop.n.cancelled)
    modifies coll
    ensures Drive(c, loop, old(CacheOf(coll)), round) ==
            (loop.(pc := R.Handling(TimedOut), n := CountersOf(coll, loop.n.cancelled)), CacheOf(coll))
    ensures !coll.up && coll.View() == old(coll.View())
    ensures CountersOf(coll, 0) == Failing(old(CountersOf(coll, 0)), 1, 0)
  {
    coll.IncPollTimeout();
    ghost var counted := loop.(pc := R.Lowering(TimedOut), n := CountersOf(coll, loop.n.cancelled));
    assert Drive(c, loop, CacheOf(coll), round) == Drive(c, counted, CacheOf(coll), round);
    coll.MarkDown();
    assert Drive(c, counted, old(CacheOf(coll)), round) ==
           Drive(c, counted.(pc := R.Handling(TimedOut)), CacheOf(coll), round);
  }

  lemma TimerDecides(c: R.Setup, loop: R.Loop, cache: R.Cache, round: Round)
    requires loop.pc.CheckingFreshness?
    ensures Drive(c, loop, cache, round) ==
            if IsFresh(cache.lastUpdateAt, c.window, round.now) then (loop.(pc := R.Handling(FreshTelemetry)), cache)
            else Drive(c, loop.(pc := if c.fallback then R.FallingBack else R.TimingOut), cache, round)
  {}

  lemma FallbackFills(c: R.Setup, loop: R.Loop, cache: R.Cache, round: Round)
    requires loop.pc.FallingBack?
    ensures var done := loop.(pc := R.TimingOut);
            Drive(c, loop, cache, round) ==
            if Applies(round) then
              Drive(c, done.(n := loop.n.(fallbacks := loop.n.fallbacks + 1)),
                    cache.(lastUpdateAt := Some(round.offered.value.1)), round)
            else Drive(c, done, cache, round)
  {
    if Applies(round) {
      assert Drive(c, loop, cache, round) ==
             Drive(c, loop.(pc := R.FallbackApplied), cache.(lastUpdateAt := Some(round.offered.value.1)), round);
    }
  }

  /** What follows the response timer: fresh telemetry, else the ESP32 fallback and a timed-out poll. */
  method AfterTimer(c: R.Setup, coll: Collector, ghost loop: R.Loop, round: Round) returns (r: PollResult)
    requires loop.pc.CheckingFreshness? && loop.n == CountersOf(coll, loop.n.cancelled)
    modifies coll
    ensures Drive(c, loop, old(CacheOf(coll)), round) ==
            (loop.(pc := R.Handling(r), n := CountersOf(coll, loop.n.cancelled)), CacheOf(coll))
    ensures r == if IsFresh(old(coll.lastUpdateAt), c.window, round.now) then FreshTelemetry else TimedOut
    ensures coll.up == (r == FreshTelemetry && old(coll.up))
    ensures var fills := r == TimedOut && c.fallback && Applies(round);
            var failed := if r == TimedOut then 1 else 0;
            var filled := if fills then 1 else 0;
            && coll.View() == (if fills then Commit(old(coll.View()), round.offered.value.0, round.offered.value.1)
                               else old(coll.View()))
            && CountersOf(coll, 0) ==
               Failing(old(CountersOf(coll, 0)), failed, 0).(fallbacks := old(coll.esp32FallbackUpdates) + filled)
  {
    hide Known, Drive, Unix;
    ghost var cache := CacheOf(coll);
    TimerDecides(c, loop, cache, round);
    var isFresh := coll.HasFreshPayload(c.window, round.now);
    if isFresh { return FreshTelemetry; }
    if c.fallback {
      FallbackFills(c, loop.(pc := R.FallingBack), cache, round);
      if round.offered.Some? {
        var (values, now) := round.offered.value;
        var applied := coll.UpdateMetrics(values, now);
        if applied { coll.IncESP32FallbackUpdate(); }
      }
    }
    GiveUpPoll(c, coll, loop.(pc := R.TimingOut, n := CountersOf(coll, loop.n.cancelled)), round);
    return TimedOut;
  }

  /** runPoll: counters, gauges and outcome are those of the poll loop's steps. */
  method RunPoll(c: R.Setup, coll: Collector, responseCh: ResponseChannel, ghost loop: R.Loop, round: Round)
    returns (r: Option<PollResult>)
    requires loop.pc.Draining? && loop.n == CountersOf(coll, loop.n.cancelled)
    modifies coll, responseCh
    ensures !responseCh.token
    ensures var (loop', cache') := Drive(c, loop, old(CacheOf(coll)), round);
            && loop'.pc == AfterPoll(r) && loop'.n == CountersOf(coll, loop'.n.cancelled) && cache' == CacheOf(coll)
            && loop'.n.cancelled == loop.n.cancelled + (if r.None? then 1 else 0)
            && loop'.misses == loop.misses && loop'.results == loop.results
    ensures r == if !round.published then Some(PublishFailed)
                 else if round.ending == Answered then Some(Responded)
                 else if round.ending == Stopped then None
                 else if IsFresh(old(coll.lastUpdateAt), c.window, round.now) then Some(FreshTelemetry)
                 else Some(TimedOut)
    ensures coll.up == (r != Some(PublishFailed) && r != Some(TimedOut) && old(coll.up))
    ensures var fills := r == Some(TimedOut) && c.fallback && Applies(round);
            && coll.View() == (if fills then Commit(old(coll.View()), round.offered.value.0, round.offered.value.1)
                               else old(coll.View()))
            && coll.esp32FallbackUpdates == old(coll.esp32FallbackUpdates) + if fills then 1 else 0
    ensures coll.scrapesTotal == old(coll.scrapesTotal) + 1
    ensures coll.pollTimeoutsTotal == old(coll.pollTimeoutsTotal) + if r == Some(TimedOut) then 1 else 0
    ensures coll.pollPublishErrorsTotal == old(coll.pollPublishErrorsTotal) + if r == Some(PublishFailed) then 1 else 0
    ensures coll.scrapeErrorsTotal ==
            old(coll.scrapeErrorsTotal) + if r == Some(PublishFailed) || r == Some(TimedOut) then 1 else 0
  {
    hide Drive;
    ghost var cache := CacheOf(coll);
    responseCh.Drain();
    CountsScrape(c, loop, cache, round);
    coll.IncScrape();
    ghost var scraped := loop.(pc := R.Publishing, n := CountersOf(coll, loop.n.cancelled));
    if !round.published {
      coll.IncPollPublishError();
      coll.MarkDown();
      PublishFails(c, scraped, cache, round);
      return Some(PublishFailed);
    }
    PublishWorks(c, scraped, cache, round);
    r := AwaitAnswer(c, coll, responseCh, scraped.(pc := R.Awaiting), round);
  }

  /** The select after publishing.  A callback's token may come in while it waits; being answered is
      taking it. */
  method AwaitAnswer(c: R.Setup, coll: Collector, responseCh: ResponseChannel, ghost loop: R.Loop, round: Round)
    returns (r: Option<PollResult>)
    requires loop.pc.Awaiting? && loop.n == CountersOf(coll, loop.n.cancelled) && !responseCh.token
    modifies coll, responseCh
    ensures !responseCh.token
    ensures Drive(c, loop, old(CacheOf(coll)), round) ==
            (loop.(pc := AfterPoll(r), n := CountersOf(coll, loop.n.cancelled + if r.None? then 1 else 0)),
             CacheOf(coll))
    ensures r == if round.ending == Answered then Some(Responded)
                 else if round.ending == Stopped then None
                 else if IsFresh(old(coll.lastUpdateAt), c.window, round.now) then Some(FreshTelemetry)
                 else Some(TimedOut)
    ensures coll.up == (r != Some(TimedOut) && old(coll.up))
    ensures var fills := r == Some(TimedOut) && c.fallback && Applies(round);
            var failed := if r == Some(TimedOut) then 1 else 0;
            var filled := if fills then 1 else 0;
            && coll.View() == (if fills then Commit(old(coll.View()), round.offered.value.0, round.offered.value.1)
                               else old(coll.View()))
            && CountersOf(coll, 0) ==
               Failing(old(CountersOf(coll, 0)), failed, 0).(fallbacks := old(coll.esp32FallbackUpdates) + filled)
  {
    ghost var cache := CacheOf(coll);
    match round.ending
    case Answered =>
      assert Drive(c, loop, cache, round) == Drive(c, loop.(pc := R.Handling(Responded)), cache, round);
      responseCh.Signal();
      responseCh.Drain();
      return Some(Responded);
    case TimerFired =>
      assert Drive(c, loop, cache, round) == Drive(c, loop.(pc := R.CheckingFreshness), cache, round);
      var result := AfterTimer(c, coll, loop.(pc := R.CheckingFreshness), round);
      return Some(result);
    case Stopped =>
      ghost var stopped := loop.(pc := R.PollStopped, n := CountersOf(coll, loop.n.cancelled + 1));
      assert Drive(c, loop, cache, round) == Drive(c, stopped, cache, round);
      return None;
  }

  lemma CountsScrape(c: R.Setup, loop: R.Loop, cache: R.Cache, round: Round)
    requires loop.pc.Draining?
    ensures Drive(c, loop, cache, round) ==
            Drive(c, loop.(pc := R.Publishing, n := loop.n.(scrapes := loop.n.scrapes + 1)), cache, round)
  {
    assert Drive(c, loop, cache, round) == Drive(c, loop.(pc := R.Scraping), cache, round);
  }

  lemma PublishWorks(c: R.Setup, loop: R.Loop, cache: R.Cache, round: Round)
    requires loop.pc.Publishing? && round.published
    ensures Drive(c, loop, cache, round) == Drive(c, loop.(pc := R.Awaiting), cache, round)
  {}

  lemma PublishFails(c: R.Setup, loop: R.Loop, cache: R.Cache, round: Round)
    requires loop.pc.Publishing? && !round.published
    ensures Drive(c, loop, cache, round) ==
            (loop.(pc := R.Handling(PublishFailed),
                   n := loop.n.(scrapeErrors := loop.n.scrapeErrors + 1, publishErrors := loop.n.publishErrors + 1)),
             cache.(up := false))
  {
    var failing := loop.(pc := R.PublishError);
    assert Drive(c, loop, cache, round) == Drive(c, failing, cache, round);
    var lowering := failing.(pc := R.Lowering(PublishFailed),
      n := loop.n.(scrapeErrors := loop.n.scrapeErrors + 1, publishErrors := loop.n.publishErrors + 1));
    assert Drive(c, failing, cache, round) == Drive(c, lowering, cache, round);
    assert Drive(c, lowering, cache, round) ==
           Drive(c, lowering.(pc := R.Handling(PublishFailed)), cache.(up := false), round);
  }

  /** handleDevicePayload: a rejected payload changes nothing; an accepted one replaces the cache, then
      raises up, then signals the poll loop. */
  method HandleDevicePayload(coll: Collector, responseCh: ResponseChannel, payload: string, now: int)
    modifies coll, responseCh
    ensures coll.View() == Commit(old(coll.View()), DeviceSamples(coll.isFloat, payload), now)
    ensures var accepted := Accepts(coll.isFloat, payload);
            && CacheOf(coll) == (if accepted then R.Cache(Some(now), true) else old(CacheOf(coll)))
            && responseCh.token == (accepted || old(responseCh.token))
    ensures forall n :: CountersOf(coll, n) == old(CountersOf(coll, n))
  {
    hide DeviceSamples, Known;
    KnownDeviceSamples(coll.isFloat, payload);
    var ok := coll.Update(payload, now);
    if !ok { return; }
    coll.MarkUp();
    responseCh.Signal();
  }

  /** A callback with its payload is a legal run of the concurrent system, beside which nothing else need
      move: a rejected payload changes nothing, an accepted one ends as HandleDevicePayload does. */
  lemma CallbackIsRun(c: R.Setup, s0: R.State, acts: seq<R.Action>, s: R.State, i: nat, payload: string, now: int)
    returns (all: seq<R.Action>, s': R.State)
    requires R.Legal(c, s0, acts) && R.Execute(c, s0, acts) == s && i < |s.callbacks| && s.callbacks[i].Waiting?
    ensures acts <= all && R.Legal(c, s0, all) && R.Execute(c, s0, all) == s'
    ensures !c.accepts(payload) ==> s' == s
    ensures c.accepts(payload) ==>
              s' == s.(cache := R.Cache(Some(now), true), wires := s.wires.(response := true),
                       log := s.log + [R.PayloadAccepted(payload)])
  {
    hide R.Legal, R.Execute;
    all, s' := R.Then(c, s0, acts, s, R.Callback(i, payload, now));
    if c.accepts(payload) {
      all, s' := R.Then(c, s0, all, s', R.Callback(i, payload, now));
      all, s' := R.Then(c, s0, all, s', R.Callback(i, payload, now));
      all, s' := R.Then(c, s0, all, s', R.Callback(i, payload, now));
      assert s'.callbacks == s.callbacks;
    }
  }

  /** Each step Drive makes is one Recovery allows the poll loop: an answered wait needs a token in the
      response channel, a stopped one a cancelled context, and every other step nothing. */
  lemma DriveStepAllowed(c: R.Setup, s: R.State, round: Round)
    requires (Rank(s.loop.pc) > 0 || s.loop.pc.Lowering?)
    requires s.loop.pc.Awaiting? && round.ending.Answered? ==> s.wires.response
    requires s.loop.pc.Awaiting? && round.ending.Stopped? ==> s.cancelled
    ensures var p := InputAt(s.loop.pc, round);
            && R.PollEnabled(s, p)
            && R.PollMove(c, s, p).loop == R.LoopMove(c, s.loop, s.cache, p)
            && R.PollMove(c, s, p).cache == R.CacheMove(s.loop, s.cache, p)
            && R.PollMove(c, s, p).sup == s.sup && R.PollMove(c, s, p).log == s.log
  {}

  /** The poll reaches its select. */
  predicate Waits(pc: R.PollPC, round: Round) { pc.Awaiting? || (Rank(pc) >= 7 && round.published) }

  lemma CallbackSignals(c: R.Setup, s: R.State, i: nat)
    requires i < |s.callbacks| && s.callbacks[i].Signalling?
    ensures var s' := R.Apply(c, s, R.Callback(i, "", 0));
            && s'.wires.response && s'.wires.trigger == s.wires.trigger
            && s'.loop == s.loop && s'.cache == s.cache && s'.sup == s.sup && s'.log == s.log
            && s'.cancelled == s.cancelled
  {}

  lemma WiresOfStep(c: R.Setup, s: R.State, round: Round)
    requires Rank(s.loop.pc) > 0 || s.loop.pc.Lowering?
    requires R.PollEnabled(s, InputAt(s.loop.pc, round))
    ensures var s' := R.PollMove(c, s, InputAt(s.loop.pc, round));
            && s'.wires.trigger == s.wires.trigger
            && (s.loop.pc.Draining? || s.loop.pc.StartDraining? || !s.wires.response ==> !s'.wires.response)
            && (s.loop.pc.Awaiting? && round.ending.Answered? ==> !s'.wires.response)
            && s'.callbacks == s.callbacks && s'.cancelled == s.cancelled
  {
    hide R.LoopMove, R.CacheMove;
  }

  lemma RankFalls(c: R.Setup, loop: R.Loop, cache: R.Cache, round: Round)
    requires Rank(loop.pc) > 0 || loop.pc.Lowering?
    ensures var pc := R.LoopMove(c, loop, cache, InputAt(loop.pc, round)).pc;
            && (Rank(pc) < Rank(loop.pc) || (loop.pc.Lowering? && Rank(pc) == 0 && !pc.Lowering?))
            && (loop.pc.Awaiting? ==> !Waits(pc, round)) && (Waits(pc, round) ==> Waits(loop.pc, round))
            && (Rank(pc) > 0 || pc.Lowering? || pc.Handling? || pc.PollStopped?)
  {}

  lemma DriveUnfolds(c: R.Setup, loop: R.Loop, cache: R.Cache, round: Round)
    requires Rank(loop.pc) > 0 || loop.pc.Lowering?
    ensures var p := InputAt(loop.pc, round);
            Drive(c, loop, cache, round) == Drive(c, R.LoopMove(c, loop, cache, p), R.CacheMove(loop, cache, p), round)
  {
    hide R.LoopMove, R.CacheMove, InputAt;
  }

  /** A whole poll is a legal run of the concurrent system in which the poll loop takes every step but
      one: an answered wait has callback `i` put its token in first. */
  lemma {:induction false} DriveIsRun(c: R.Setup, s0: R.State, acts: seq<R.Action>, s: R.State, round: Round, i: nat)
    returns (all: seq<R.Action>, s': R.State)
    requires R.Legal(c, s0, acts) && R.Execute(c, s0, acts) == s
    requires Waits(s.loop.pc, round) && round.ending.Answered? ==> i < |s.callbacks| && s.callbacks[i].Signalling?
    requires Waits(s.loop.pc, round) && round.ending.Stopped? ==> s.cancelled
    ensures acts <= all && R.Legal(c, s0, all) && R.Execute(c, s0, all) == s'
    ensures (s'.loop, s'.cache) == Drive(c, s.loop, s.cache, round)
    ensures s'.sup == s.sup && s'.log == s.log && s'.wires.trigger == s.wires.trigger
    ensures Rank(s.loop.pc) >= 9 || !s.wires.response ==> !s'.wires.response
    decreases Rank(s.loop.pc), if s.loop.pc.Lowering? then 1 else 0
  {
    hide R.Legal, R.Execute, R.Apply, R.PollMove, R.LoopMove, R.CacheMove, R.PollEnabled, InputAt, Drive;
    if Rank(s.loop.pc) == 0 && !s.loop.pc.Lowering? {
      DriveEnds(c, s.loop, s.cache, round);
      return acts, s;
    }
    var before, at := acts, s;
    if s.loop.pc.Awaiting? && round.ending.Answered? {
      CallbackSignals(c, s, i);
      before, at := R.Then(c, s0, acts, s, R.Callback(i, "", 0));
    }
    var p := InputAt(at.loop.pc, round);
    DriveStepAllowed(c, at, round);
    WiresOfStep(c, at, round);
    RankFalls(c, at.loop, at.cache, round);
    DriveUnfolds(c, at.loop, at.cache, round);
    var next, after := R.Then(c, s0, before, at, R.Poll(p));
    PollApplies(c, at, p);
    all, s' := DriveIsRun(c, s0, next, after, round, i);
  }

  lemma DriveEnds(c: R.Setup, loop: R.Loop, cache: R.Cache, round: Round)
    requires Rank(loop.pc) == 0 && !loop.pc.Lowering?
    ensures Drive(c, loop, cache, round) == (loop, cache)
  {}

  lemma PollApplies(c: R.Setup, s: R.State, p: R.PollInput)
    requires R.PollEnabled(s, p)
    ensures R.Enabled(s, R.Poll(p)) && R.Apply(c, s, R.Poll(p)) == R.PollMove(c, s, p)
  {}
}
