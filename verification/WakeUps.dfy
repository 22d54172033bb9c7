/** No early status check is lost between TriggerCheck and Run. */
module WakeUps {
  import opened Recovery

  /** The last trigger has not been followed by a trigger-driven check. */
  function Unserved(log: seq<Moment>): bool {
    if log == [] then false
    else
      match log[|log| - 1]
      case Triggered => true
      case CheckEntered(byTrigger) => if byTrigger then false else Unserved(log[..|log| - 1])
      case _ => Unserved(log[..|log| - 1])
  }

  /** Trigger calls minus trigger-driven checks. */
  function Surplus(log: seq<Moment>): int {
    if log == [] then 0
    else
      Surplus(log[..|log| - 1]) +
      match log[|log| - 1]
      case Triggered => 1
      case CheckEntered(byTrigger) => if byTrigger then -1 else 0
      case _ => 0
  }

  lemma Snoc(log: seq<Moment>, e: Moment)
    ensures Unserved(log + [e]) == (e.Triggered? || (e != CheckEntered(true) && Unserved(log)))
    ensures Surplus(log + [e]) == Surplus(log) + (if e.Triggered? then 1 else if e == CheckEntered(true) then -1 else 0)
  {
    assert (log + [e])[..|log|] == log;
  }

  predicate OnItsWay(s: State) { s.wires.trigger || s.sup.run == RunReceived(true) }

  ghost predicate WakeInv(s: State) {
    && (Unserved(s.log) ==> OnItsWay(s))
    && Surplus(s.log) >= (if s.wires.trigger then 1 else 0) + (if s.sup.run == RunReceived(true) then 1 else 0)
  }

  lemma ReceivedEnters(c: Setup, s: State)
    requires SupervisorInv(c, s.sup) && s.sup.run.RunReceived?
    ensures s.sup.pc.Idle? && !s.sup.sh.f.inProgress && !s.sup.sh.mutex
  {}

  lemma WakeStep(c: Setup, s: State, a: Action)
    requires WakeInv(s) && SupervisorInv(c, s.sup) && Enabled(s, a)
    ensures WakeInv(Apply(c, s, a))
  {
    hide Unserved, Surplus, LoopMove, CacheMove, SupervisorInv;
    var s' := Apply(c, s, a);
    StepNotes(c, s, a);
    var e := Noted(s, a);
    if e == [] {
      assert s'.log == s.log;
    } else {
      assert e == [e[0]];
      Snoc(s.log, e[0]);
    }
    if s.sup.run.RunReceived? { ReceivedEnters(c, s); }
  }

  lemma {:induction false} WakeHolds(c: Setup, callbacks: nat, acts: seq<Action>)
    requires Legal(c, Start(callbacks), acts)
    ensures WakeInv(Execute(c, Start(callbacks), acts))
    decreases |acts|
  {
    if acts != [] {
      var before := acts[..|acts| - 1];
      WakeHolds(c, callbacks, before);
      SupervisorHolds(c, callbacks, before);
      WakeStep(c, Execute(c, Start(callbacks), before), acts[|acts| - 1]);
    }
  }

  lemma {:induction false} ServedAfter(log: seq<Moment>, i: nat) returns (j: nat)
    requires i < |log| && log[i].Triggered? && !Unserved(log)
    ensures i < j < |log| && log[j] == CheckEntered(true)
    decreases |log|
  {
    if log[|log| - 1] == CheckEntered(true) {
      j := |log| - 1;
    } else {
      j := ServedAfter(log[..|log| - 1], i);
    }
  }

  /** After any TriggerCheck, the channel still holds a token, or Run has taken one and is about to
      enter Check, or a trigger-driven check has been entered since. */
  lemma NoLostTrigger(c: Setup, callbacks: nat, acts: seq<Action>, i: nat)
    requires Legal(c, Start(callbacks), acts)
    requires var log := Execute(c, Start(callbacks), acts).log; i < |log| && log[i].Triggered?
    ensures var s := Execute(c, Start(callbacks), acts);
            OnItsWay(s) || exists j :: i < j < |s.log| && s.log[j] == CheckEntered(true)
  {
    WakeHolds(c, callbacks, acts);
    var s := Execute(c, Start(callbacks), acts);
    if !Unserved(s.log) {
      var j := ServedAfter(s.log, i);
    }
  }

  /** Trigger-driven checks never outnumber TriggerCheck calls. */
  lemma ChecksWithinTriggers(c: Setup, callbacks: nat, acts: seq<Action>)
    requires Legal(c, Start(callbacks), acts)
    ensures Surplus(Execute(c, Start(callbacks), acts).log) >= 0
  {
    WakeHolds(c, callbacks, acts);
  }

  /** With Run the only caller of Check, a tick or trigger it has received always gets past beginCheck. */
  lemma ReceivedIsNeverSkipped(c: Setup, callbacks: nat, acts: seq<Action>, r: RunInput)
    requires Legal(c, Start(callbacks), acts)
    requires Execute(c, Start(callbacks), acts).sup.run.RunReceived?
    ensures var s := Execute(c, Start(callbacks), acts);
            RunEnabled(s, r) && RunMove(c, s, r).log == s.log + [CheckEntered(s.sup.run.byTrigger)]
  {
    SupervisorHolds(c, callbacks, acts);
    ReceivedEnters(c, Execute(c, Start(callbacks), acts));
  }

  // ---------------------------------------------------------------------------------------------
  // Stopping

  /** Once the context is cancelled, and not before, Run can leave its select and the poll loop either of
      its two; having left, neither ever moves again. */
  lemma StopsWhenCancelled(c: Setup, s: State)
    ensures s.sup.run.RunSelecting? ==> (Enabled(s, RunStep(CtxDone)) <==> s.cancelled)
    ensures s.sup.run.RunSelecting? && s.cancelled ==>
              Apply(c, s, RunStep(CtxDone)) == s.(sup := s.sup.(run := RunStopped))
    ensures s.loop.pc.Ticking? || s.loop.pc.Awaiting? ==> (Enabled(s, Poll(Done)) <==> s.cancelled)
    ensures (s.loop.pc.Ticking? || s.loop.pc.Awaiting?) && s.cancelled ==>
              var s' := Apply(c, s, Poll(Done));
              s'.loop.pc.PollStopped? && s'.loop.results == s.loop.results && s'.cache == s.cache && s'.log == s.log
    ensures s.sup.run.RunStopped? ==> forall r :: !Enabled(s, RunStep(r))
    ensures s.loop.pc.PollStopped? ==> forall p :: !Enabled(s, Poll(p))
  {}

  ghost predicate NoChecks(log: seq<Moment>, from: nat) {
    forall i :: from <= i < |log| ==> !log[i].CheckEntered? && !log[i].WiFiConfigured?
  }

  lemma StoppedStep(c: Setup, s: State, a: Action)
    requires SupervisorInv(c, s.sup) && Enabled(s, a)
    ensures s.sup.run.RunStopped? ==>
              && Apply(c, s, a).sup.run.RunStopped?
              && forall i :: 0 <= i < |Noted(s, a)| ==> !Noted(s, a)[i].CheckEntered? && !Noted(s, a)[i].WiFiConfigured?
    ensures s.loop.pc.PollStopped? ==> Apply(c, s, a).loop == s.loop
  {
    hide SupervisorInv, LoopMove, CacheMove, WiresMove;
  }

  /** After Run has ended no check is entered and Wi-Fi is not configured, whatever the others still do; after
      the poll loop has ended no further result is handled. */
  lemma {:induction false} NothingAfterStop(c: Setup, callbacks: nat, acts: seq<Action>, more: seq<Action>)
    requires Legal(c, Start(callbacks), acts) && Legal(c, Start(callbacks), acts + more)
    ensures var s, s' := Execute(c, Start(callbacks), acts), Execute(c, Start(callbacks), acts + more);
            && s.log <= s'.log
            && (s.sup.run.RunStopped? ==> s'.sup.run.RunStopped? && NoChecks(s'.log, |s.log|))
            && (s.loop.pc.PollStopped? ==> s'.loop == s.loop)
    decreases |more|
  {
    hide Apply, SupervisorInv, Noted, Enabled;
    if more == [] {
      assert acts + more == acts;
    } else {
      var before, a := acts + more[..|more| - 1], more[|more| - 1];
      assert (acts + more)[..|acts + more| - 1] == before;
      NothingAfterStop(c, callbacks, acts, more[..|more| - 1]);
      SupervisorHolds(c, callbacks, before);
      var s := Execute(c, Start(callbacks), before);
      StepNotes(c, s, a);
      StoppedStep(c, s, a);
    }
  }
}
