/** The up gauge: what MarkDown after a failed poll is worth while MQTT callbacks run beside it.

"Once a failed poll has lowered up, it stays 0 until a device payload is accepted" is not true: a
callback that replaced the cache before the poll failed may raise up after MarkDown.  The lemmas give
that run and say exactly when the claim holds. */
module UpGauge {
  import opened Options
  import opened PollLoop
  import opened Recovery

  function Accepted(log: seq<Moment>): nat {
    if log == [] then 0 else Accepted(log[..|log| - 1]) + if log[|log| - 1].PayloadAccepted? then 1 else 0
  }

  /** No callback is between replacing the cache and MarkUp. */
  ghost predicate Settled(s: State) { forall i :: 0 <= i < |s.callbacks| ==> !s.callbacks[i].Raising? }

  ghost predicate Down(s: State) { !s.cache.up && Settled(s) }

  /** Along every continuation of `acts` in which no further payload is accepted, up is 0. */
  ghost predicate StaysDown(c: Setup, callbacks: nat, acts: seq<Action>)
    requires Legal(c, Start(callbacks), acts)
  {
    forall more :: Legal(c, Start(callbacks), acts + more) ==>
      var s, s' := Execute(c, Start(callbacks), acts), Execute(c, Start(callbacks), acts + more);
      Accepted(s'.log) == Accepted(s.log) ==> !s'.cache.up
  }

  lemma AcceptedSnoc(log: seq<Moment>, e: seq<Moment>)
    requires |e| <= 1
    ensures Accepted(log + e) == Accepted(log) + if e != [] && e[0].PayloadAccepted? then 1 else 0
  {
    if e == [] {
      assert log + e == log;
    } else {
      assert (log + e)[..|log|] == log;
    }
  }

  /** A step notes the acceptance of a payload exactly when a callback replaces the cache. */
  lemma StepAccepts(c: Setup, s: State, a: Action)
    requires SupervisorInv(c, s.sup) && Enabled(s, a)
    ensures Accepted(Apply(c, s, a).log) ==
            Accepted(s.log) + if a.Callback? && s.callbacks[a.i].Committing? then 1 else 0
  {
    hide Accepted, Apply, SupervisorInv;
    StepNotes(c, s, a);
    AcceptedSnoc(s.log, Noted(s, a));
  }

  lemma PollKeepsDown(c: Setup, s: State, p: PollInput)
    requires Down(s) && PollEnabled(s, p)
    ensures Down(PollMove(c, s, p))
  {
    hide LoopMove, WiresMove;
  }

  lemma CallbackKeepsDown(c: Setup, s: State, i: nat, payload: string, now: int)
    requires Down(s) && i < |s.callbacks| && !s.callbacks[i].Committing?
    ensures Down(CallbackMove(c, s, i, payload, now))
  {}

  lemma RunKeepsDown(c: Setup, s: State, r: RunInput)
    requires Down(s) && RunEnabled(s, r)
    ensures Down(RunMove(c, s, r))
  {}

  lemma DownStep(c: Setup, s: State, a: Action)
    requires Down(s) && SupervisorInv(c, s.sup) && Enabled(s, a)
    ensures Accepted(Apply(c, s, a).log) == Accepted(s.log) ==> Down(Apply(c, s, a))
  {
    hide Accepted, Down, SupervisorInv, PollMove, CallbackMove, RunMove, PollEnabled, RunEnabled;
    StepAccepts(c, s, a);
    match a
    case Cancel => CancelKeepsDown(s);
    case Callback(i, payload, now) => if !s.callbacks[i].Committing? { CallbackKeepsDown(c, s, i, payload, now); }
    case Poll(p) => PollKeepsDown(c, s, p);
    case RunStep(r) => RunKeepsDown(c, s, r);
  }

  lemma CancelKeepsDown(s: State)
    requires Down(s)
    ensures Down(s.(cancelled := true))
  {}

  lemma {:induction false} DownUntilHeard(c: Setup, callbacks: nat, acts: seq<Action>, more: seq<Action>)
    requires Legal(c, Start(callbacks), acts) && Legal(c, Start(callbacks), acts + more)
    requires Down(Execute(c, Start(callbacks), acts))
    ensures var s, s' := Execute(c, Start(callbacks), acts), Execute(c, Start(callbacks), acts + more);
            Accepted(s'.log) >= Accepted(s.log) && (Accepted(s'.log) == Accepted(s.log) ==> Down(s'))
    decreases |more|
  {
    hide Accepted, Down, Apply, SupervisorInv;
    if more == [] {
      assert acts + more == acts;
    } else {
      var before := acts + more[..|more| - 1];
      assert (acts + more)[..|acts + more| - 1] == before;
      DownUntilHeard(c, callbacks, acts, more[..|more| - 1]);
      SupervisorHolds(c, callbacks, before);
      var s := Execute(c, Start(callbacks), before);
      StepAccepts(c, s, more[|more| - 1]);
      if Accepted(s.log) == Accepted(Execute(c, Start(callbacks), acts).log) {
        DownStep(c, s, more[|more| - 1]);
      }
    }
  }

  lemma RaisingRaises(c: Setup, s: State, i: nat)
    requires i < |s.callbacks| && s.callbacks[i].Raising?
    ensures var s' := Apply(c, s, Callback(i, "", 0)); s'.cache.up && s'.log == s.log
  {}

  /** In any reachable state up stays 0 until a further payload is accepted if and only if it is 0 and
      no callback stands between replacing the cache and MarkUp. */
  lemma DownExact(c: Setup, callbacks: nat, acts: seq<Action>)
    requires Legal(c, Start(callbacks), acts)
    ensures StaysDown(c, callbacks, acts) <==> Down(Execute(c, Start(callbacks), acts))
  {
    hide Legal, Execute, Start, Accepted, Apply;
    var s0 := Start(callbacks);
    var s := Execute(c, s0, acts);
    if Down(s) {
      forall more | Legal(c, s0, acts + more) && Accepted(Execute(c, s0, acts + more).log) == Accepted(s.log)
        ensures !Execute(c, s0, acts + more).cache.up
      {
        DownUntilHeard(c, callbacks, acts, more);
      }
    } else if s.cache.up {
      assert acts + [] == acts;
    } else {
      var i :| 0 <= i < |s.callbacks| && s.callbacks[i].Raising?;
      LegalSnoc(c, s0, acts, Callback(i, "", 0));
      RaisingRaises(c, s, i);
    }
  }

  lemma Lowers(c: Setup, s: State)
    requires s.loop.pc.Lowering?
    ensures Enabled(s, Poll(Go))
    ensures var s' := Apply(c, s, Poll(Go));
            !s'.cache.up && s'.callbacks == s.callbacks && s'.log == s.log && s'.sup == s.sup
  {}

  /** MarkDown after a failed poll keeps up at 0 until a further payload is accepted, however many ESP32
      fallback updates succeed, if and only if no callback was just about to raise it. */
  lemma UpStaysDown(c: Setup, callbacks: nat, acts: seq<Action>)
    requires Legal(c, Start(callbacks), acts) && Execute(c, Start(callbacks), acts).loop.pc.Lowering?
    ensures Legal(c, Start(callbacks), acts + [Poll(Go)])
    ensures StaysDown(c, callbacks, acts + [Poll(Go)]) <==> Settled(Execute(c, Start(callbacks), acts))
  {
    hide Legal, Execute, Start, Apply, StaysDown;
    Lowers(c, Execute(c, Start(callbacks), acts));
    LegalSnoc(c, Start(callbacks), acts, Poll(Go));
    DownExact(c, callbacks, acts + [Poll(Go)]);
  }

  // ---------------------------------------------------------------------------------------------
  // What changes the gauge at all

  /** Only a failed poll is about to lower up, and a raise has an accepted payload behind it. */
  ghost predicate MovesEarned(s: State) {
    && (s.loop.pc.Lowering? ==> s.loop.pc.r == PublishFailed || s.loop.pc.r == TimedOut)
    && (s.cache.up || !Settled(s) ==> Accepted(s.log) > 0)
  }

  lemma PollEarnsMoves(c: Setup, s: State, p: PollInput)
    requires MovesEarned(s) && PollEnabled(s, p)
    ensures var s' := PollMove(c, s, p);
            && (s'.loop.pc.Lowering? ==> s'.loop.pc.r == PublishFailed || s'.loop.pc.r == TimedOut)
            && s'.callbacks == s.callbacks && (s'.cache.up ==> s.cache.up)
  {
    hide Accepted, WiresMove;
  }

  lemma CallbackEarnsMoves(c: Setup, s: State, i: nat, payload: string, now: int)
    requires i < |s.callbacks|
    ensures var s' := CallbackMove(c, s, i, payload, now);
            && s'.loop == s.loop
            && (s'.cache.up ==> s.cache.up || !Settled(s))
            && (!Settled(s') ==> s.callbacks[i].Committing? || !Settled(s))
  {}

  lemma StepEarnsMoves(c: Setup, s: State, a: Action)
    requires MovesEarned(s) && SupervisorInv(c, s.sup) && Enabled(s, a)
    ensures MovesEarned(Apply(c, s, a))
  {
    hide Accepted, Settled, SupervisorInv, PollMove, CallbackMove, PollEnabled, LoopMove, CacheMove, WiresMove;
    StepAccepts(c, s, a);
    match a
    case Cancel => assert Settled(s.(cancelled := true)) == Settled(s) by { SettledIs(s, s.(cancelled := true)); }
    case Callback(i, payload, now) => CallbackEarnsMoves(c, s, i, payload, now);
    case Poll(p) =>
      PollEarnsMoves(c, s, p);
      SettledIs(s, PollMove(c, s, p));
    case RunStep(r) => SettledIs(s, RunMove(c, s, r));
  }

  lemma SettledIs(s: State, s': State)
    requires s'.callbacks == s.callbacks
    ensures Settled(s') == Settled(s)
  {}

  lemma {:induction false} MovesHold(c: Setup, callbacks: nat, acts: seq<Action>)
    requires Legal(c, Start(callbacks), acts)
    ensures MovesEarned(Execute(c, Start(callbacks), acts))
    decreases |acts|
  {
    hide Apply, SupervisorInv, Enabled, Accepted;
    if acts != [] {
      var before := acts[..|acts| - 1];
      MovesHold(c, callbacks, before);
      SupervisorHolds(c, callbacks, before);
      StepEarnsMoves(c, Execute(c, Start(callbacks), before), acts[|acts| - 1]);
    }
  }

  /** Over every run, up goes from 1 to 0 only when a poll whose publishing failed or which timed out is
      marked down, and from 0 to 1 only by a callback whose payload has replaced the cache; both always
      take effect, and a poll that was answered or found fresh telemetry leaves the gauge alone. */
  lemma UpChanges(c: Setup, callbacks: nat, acts: seq<Action>, a: Action)
    requires Legal(c, Start(callbacks), acts) && Enabled(Execute(c, Start(callbacks), acts), a)
    ensures var s := Execute(c, Start(callbacks), acts);
            var s' := Apply(c, s, a);
            && (s.cache.up && !s'.cache.up ==>
                  a.Poll? && (s.loop.pc == Lowering(PublishFailed) || s.loop.pc == Lowering(TimedOut)))
            && (!s.cache.up && s'.cache.up ==> a.Callback? && s.callbacks[a.i].Raising? && Accepted(s.log) > 0)
            && (a.Poll? && (s.loop.pc == Lowering(PublishFailed) || s.loop.pc == Lowering(TimedOut)) ==> !s'.cache.up)
            && (a.Callback? && s.callbacks[a.i].Raising? ==> s'.cache.up)
  {
    hide Execute, Legal, Start, Accepted, LoopMove, WiresMove;
    MovesHold(c, callbacks, acts);
    var s := Execute(c, Start(callbacks), acts);
    if a.Callback? && s.callbacks[a.i].Raising? { assert !Settled(s); }
    if a.RunStep? { RunKeepsCache(c, s, a.r); }
  }

  lemma RunKeepsCache(c: Setup, s: State, r: RunInput)
    requires RunEnabled(s, r)
    ensures RunMove(c, s, r).cache == s.cache
  {}

  // ---------------------------------------------------------------------------------------------
  // The race, and when it cannot happen

  /** The whole claim: after every failed poll of every run up stays down. */
  ghost predicate AlwaysStaysDown(c: Setup, callbacks: nat) {
    forall acts :: Legal(c, Start(callbacks), acts) && Execute(c, Start(callbacks), acts).loop.pc.Lowering? ==>
      Legal(c, Start(callbacks), acts + [Poll(Go)]) && StaysDown(c, callbacks, acts + [Poll(Go)])
  }

  /** A payload is accepted and replaces the cache; a poll is published, fails, and is about to lower up;
      the callback is about to raise it. */
  function Race(payload: string): seq<Action> {
    [Callback(0, payload, 0), Callback(0, payload, 0), Poll(Go), Poll(Go), Poll(Go), Poll(Fail), Poll(Go)]
  }

  lemma AboutToRaise(c: Setup, callbacks: nat, payload: string) returns (acts: seq<Action>, s: State)
    requires callbacks >= 1 && c.accepts(payload)
    ensures acts == [Callback(0, payload, 0), Callback(0, payload, 0)]
    ensures Legal(c, Start(callbacks), acts) && Execute(c, Start(callbacks), acts) == s
    ensures s.loop.pc.StartDraining? && |s.callbacks| == callbacks && s.callbacks[0].Raising?
  {
    hide Legal, Execute;
    var s0 := Start(callbacks);
    NoSteps(c, s0);
    acts, s := Then(c, s0, [], s0, Callback(0, payload, 0));
    acts, s := Then(c, s0, acts, s, Callback(0, payload, 0));
  }

  /** The loop's first poll, up to the failure of publishing. */
  lemma AboutToLower(c: Setup, s0: State, before: seq<Action>, s: State) returns (acts: seq<Action>, s': State)
    requires Legal(c, s0, before) && Execute(c, s0, before) == s && s.loop.pc.StartDraining?
    ensures acts == before + [Poll(Go), Poll(Go), Poll(Go), Poll(Fail), Poll(Go)]
    ensures Legal(c, s0, acts) && Execute(c, s0, acts) == s'
    ensures s'.loop.pc.Lowering? && s'.callbacks == s.callbacks
  {
    hide Legal, Execute;
    acts, s' := Then(c, s0, before, s, Poll(Go));
    acts, s' := Then(c, s0, acts, s', Poll(Go));
    acts, s' := Then(c, s0, acts, s', Poll(Go));
    acts, s' := Then(c, s0, acts, s', Poll(Fail));
    acts, s' := Then(c, s0, acts, s', Poll(Go));
  }

  lemma RaceReached(c: Setup, callbacks: nat, payload: string)
    requires callbacks >= 1 && c.accepts(payload)
    ensures Legal(c, Start(callbacks), Race(payload))
    ensures var s := Execute(c, Start(callbacks), Race(payload));
            s.loop.pc.Lowering? && |s.callbacks| == callbacks && s.callbacks[0].Raising?
  {
    hide Legal, Execute, Apply;
    var acts, s := AboutToRaise(c, callbacks, payload);
    acts, s := AboutToLower(c, Start(callbacks), acts, s);
    assert acts == Race(payload);
  }

  /** The run that breaks the claim: up is 1 again although no payload was accepted since MarkDown. */
  lemma RaceRaisesUp(c: Setup, callbacks: nat, payload: string)
    requires callbacks >= 1 && c.accepts(payload)
    ensures var acts := Race(payload) + [Poll(Go)];
            && Legal(c, Start(callbacks), acts) && !Execute(c, Start(callbacks), acts).cache.up
            && Legal(c, Start(callbacks), acts + [Callback(0, "", 0)])
            && Execute(c, Start(callbacks), acts + [Callback(0, "", 0)]).cache.up
            && Execute(c, Start(callbacks), acts + [Callback(0, "", 0)]).log == Execute(c, Start(callbacks), acts).log
  {
    hide Legal, Execute, Start, Apply;
    var s0 := Start(callbacks);
    RaceReached(c, callbacks, payload);
    Lowers(c, Execute(c, s0, Race(payload)));
    LegalSnoc(c, s0, Race(payload), Poll(Go));
    var s := Execute(c, s0, Race(payload) + [Poll(Go)]);
    RaisingRaises(c, s, 0);
    LegalSnoc(c, s0, Race(payload) + [Poll(Go)], Callback(0, "", 0));
  }

  lemma {:induction false} NobodyRaises(c: Setup, callbacks: nat, acts: seq<Action>)
    requires callbacks == 0 || forall payload :: !c.accepts(payload)
    requires Legal(c, Start(callbacks), acts)
    ensures var s := Execute(c, Start(callbacks), acts); forall i :: 0 <= i < |s.callbacks| ==> s.callbacks[i].Waiting?
    ensures |Execute(c, Start(callbacks), acts).callbacks| == callbacks
    decreases |acts|
  {
    if acts != [] {
      var before := acts[..|acts| - 1];
      NobodyRaises(c, callbacks, before);
      KeepsWaiting(c, Execute(c, Start(callbacks), before), acts[|acts| - 1]);
    }
  }

  lemma KeepsWaiting(c: Setup, s: State, a: Action)
    requires |s.callbacks| == 0 || forall payload :: !c.accepts(payload)
    requires Enabled(s, a) && forall i :: 0 <= i < |s.callbacks| ==> s.callbacks[i].Waiting?
    ensures Apply(c, s, a).callbacks == s.callbacks
  {
    hide LoopMove, CacheMove, WiresMove;
  }

  /** The claim holds over every run exactly when there is no callback to race with, or no payload any
      callback would accept. */
  lemma AlwaysStaysDownIff(c: Setup, callbacks: nat)
    ensures AlwaysStaysDown(c, callbacks) <==> callbacks == 0 || forall payload :: !c.accepts(payload)
  {
    hide Legal, Execute, Start, Apply, StaysDown;
    if callbacks == 0 || forall payload :: !c.accepts(payload) {
      forall acts | Legal(c, Start(callbacks), acts) && Execute(c, Start(callbacks), acts).loop.pc.Lowering?
        ensures Legal(c, Start(callbacks), acts + [Poll(Go)]) && StaysDown(c, callbacks, acts + [Poll(Go)])
      {
        NobodyRaises(c, callbacks, acts);
        UpStaysDown(c, callbacks, acts);
      }
    } else {
      var payload :| c.accepts(payload);
      RaceReached(c, callbacks, payload);
      UpStaysDown(c, callbacks, Race(payload));
    }
  }
}
