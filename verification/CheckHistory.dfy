/** The history of any number of concurrent checks, event by event: which answers lead to which acts. */
module CheckHistory {
  import opened Options
  import opened CheckProtocol

  /** What must stand directly before the event at `n`.  Wi-Fi is configured only by a check whose own
      first status showed the battery connected and off Wi-Fi; the attempts are reset only by a check
      whose first status was healthy, or which has just seen Wi-Fi come back. */
  ghost predicate Caused(c: Config, log: seq<Event>, n: nat)
    requires n < |log|
  {
    match log[n]
    case Entered(_) => true
    case Opened(t, _) => n > 0 && log[n - 1] == Entered(t)
    case ConfigureWiFi(t, _) =>
      && c.hasWiFi && n > 0 && log[n - 1].Opened? && log[n - 1].caller == t && log[n - 1].answer.Some?
      && log[n - 1].answer.value.connected && !log[n - 1].answer.value.wifiConnected
    case Recovered(t, status) =>
      && status.connected && status.wifiConnected
      && n > 0 && log[n - 1].ConfigureWiFi? && log[n - 1].caller == t
    case Reset(t) =>
      && n > 0 && log[n - 1].caller == t
      && (log[n - 1].Recovered? || log[n - 1] == Opened(t, Some(Status(true, true, true))))
  }

  /** What must stand directly after it: a status call is made, a healthy status and a recovery are
      followed by the reset. */
  ghost predicate FollowedUp(log: seq<Event>, n: nat)
    requires n + 1 < |log|
  {
    var t := log[n].caller;
    && (log[n].Entered? ==> log[n + 1].Opened? && log[n + 1].caller == t)
    && (log[n] == Opened(t, Some(Status(true, true, true))) || log[n].Recovered? ==> log[n + 1] == Reset(t))
  }

  ghost predicate Explained(c: Config, log: seq<Event>) {
    && (forall n :: 0 <= n < |log| ==> Caused(c, log, n))
    && (forall n :: 0 <= n < |log| - 1 ==> FollowedUp(log, n))
  }

  /** A check may end, or another be entered, after this event. */
  predicate Settled(e: Event) {
    !e.Entered? && !e.Recovered? && (e.Opened? ==> e.answer != Some(Status(true, true, true)))
  }

  /** What a caller at `pc` has logged last. */
  ghost predicate Last(c: Config, e: Event, t: nat, pc: PC) {
    match pc
    case Idle => Settled(e)
    case Asking => e == Entered(t)
    case Resetting(r) => e.caller == t && if r then e.Recovered? else e == Opened(t, Some(Status(true, true, true)))
    case Polling(_) => e.ConfigureWiFi? && e.caller == t
    case Selecting(_) => e.ConfigureWiFi? && e.caller == t
    case _ =>
      if pc.Gating? || pc.Reserving? || BetweenReservationAndCall(pc) then
        && c.hasWiFi && e.Opened? && e.caller == t && e.answer.Some?
        && e.answer.value.connected && !e.answer.value.wifiConnected
      else Settled(e)
  }

  ghost predicate Told(c: Config, log: seq<Event>, t: nat, pc: PC) {
    Explained(c, log) && if log == [] then pc.Idle? else Last(c, log[|log| - 1], t, pc)
  }

  lemma ExplainedSnoc(c: Config, log: seq<Event>, e: Event)
    requires Explained(c, log) && Caused(c, log + [e], |log|)
    requires log != [] ==> FollowedUp(log + [e], |log| - 1)
    ensures Explained(c, log + [e])
  {
    var log' := log + [e];
    forall n | 0 <= n < |log'| ensures Caused(c, log', n) {
      if n < |log| {
        assert Caused(c, log, n);
        assert log'[n] == log[n] && (n > 0 ==> log'[n - 1] == log[n - 1]);
      }
    }
    forall n | 0 <= n < |log'| - 1 ensures FollowedUp(log', n) {
      if n < |log| - 1 { assert FollowedUp(log, n); }
    }
  }

  /** The event a step logs follows from the one before it, and is what its new place calls for. */
  lemma NextEvent(c: Config, sh: Shared, t: nat, pc: PC, input: Input, last: Event, e: Event)
    requires CanMove(sh, pc, input) && Last(c, last, t, pc) && Logged(t, pc, sh, input) == [e]
    ensures Last(c, e, t, Move(c, sh, t, pc, input).1)
    ensures Caused(c, [last, e], 1) && FollowedUp([last, e], 0)
  {}

  lemma NoEvent(c: Config, sh: Shared, t: nat, pc: PC, input: Input, last: Event)
    requires CanMove(sh, pc, input) && Last(c, last, t, pc) && Logged(t, pc, sh, input) == []
    ensures Last(c, last, t, Move(c, sh, t, pc, input).1)
  {}

  lemma PairCaused(c: Config, log: seq<Event>, e: Event)
    requires log != [] && Caused(c, [log[|log| - 1], e], 1) && FollowedUp([log[|log| - 1], e], 0)
    ensures Caused(c, log + [e], |log|) && FollowedUp(log + [e], |log| - 1)
  {
    var log' := log + [e];
    assert log'[|log|] == e && log'[|log| - 1] == log[|log| - 1];
  }

  lemma MoveTells(c: Config, sh: Shared, t: nat, pc: PC, input: Input)
    requires CanMove(sh, pc, input) && Told(c, sh.log, t, pc)
    ensures var (sh', pc') := Move(c, sh, t, pc, input); Told(c, sh'.log, t, pc')
  {
    MoveLogs(c, sh, t, pc, input);
    var logged := Logged(t, pc, sh, input);
    if logged == [] {
      assert sh.log + logged == sh.log;
      if sh.log != [] { NoEvent(c, sh, t, pc, input, sh.log[|sh.log| - 1]); }
    } else {
      var e := logged[0];
      assert logged == [e];
      if sh.log != [] {
        NextEvent(c, sh, t, pc, input, sh.log[|sh.log| - 1], e);
        hide Move, Caused, FollowedUp, Last;
        PairCaused(c, sh.log, e);
        ExplainedSnoc(c, sh.log, e);
      } else {
        assert sh.log + [e] == [e];
        ExplainedSnoc(c, [], e);
      }
    }
  }

  /** Whoever is inside has logged last; with nobody inside the last check is settled. */
  ghost predicate HistoryInv(c: Config, s: State) {
    && (Quiet(s) ==> Told(c, s.sh.log, 0, Idle))
    && (forall t :: 0 <= t < |s.pcs| && !s.pcs[t].Idle? ==> Told(c, s.sh.log, t, s.pcs[t]))
  }

  lemma ToldByAnyone(c: Config, log: seq<Event>, t: nat, u: nat)
    requires Told(c, log, t, Idle)
    ensures Told(c, log, u, Idle)
  {
    hide Explained;
  }

  lemma StepTells(c: Config, s: State, a: Action)
    requires Inv(c, s) && HistoryInv(c, s) && Enabled(s, a)
    ensures HistoryInv(c, Apply(c, s, a))
  {
    hide AtPC, LogNumbered, Told;
    match a
    case Enable =>
      assert Quiet(Apply(c, s, a)) == Quiet(s);
    case Do(t, input) =>
      var pc := s.pcs[t];
      if pc.Idle? && s.sh.f.inProgress {
        assert Apply(c, s, a).pcs == s.pcs && Apply(c, s, a).sh == s.sh;
      } else {
        if pc.Idle? { ToldByAnyone(c, s.sh.log, 0, t); }
        MoveTells(c, s.sh, t, pc, input);
        var s' := Apply(c, s, a);
        assert forall i :: 0 <= i < |s.pcs| && i != t ==> s.pcs[i].Idle? && s'.pcs[i] == s.pcs[i];
        if s'.pcs[t].Idle? { ToldByAnyone(c, s'.sh.log, t, 0); }
      }
  }

  lemma NothingTold(c: Config)
    ensures Told(c, [], 0, Idle)
  {}

  lemma {:induction false} HistoryHolds(c: Config, callers: nat, acts: seq<Action>)
    requires Legal(c, Start(callers), acts)
    ensures HistoryInv(c, Run(c, Start(callers), acts))
    decreases |acts|
  {
    hide Inv, Told, Apply, Enabled;
    if acts == [] {
      NothingTold(c);
    } else {
      var before := acts[..|acts| - 1];
      HistoryHolds(c, callers, before);
      RunKeepsInv(c, callers, before);
      StepTells(c, Run(c, Start(callers), before), acts[|acts| - 1]);
    }
  }

  /** Over every interleaving of any number of callers, every event has its cause directly before it
      and its follow-up directly after it. */
  lemma EveryActExplained(c: Config, callers: nat, acts: seq<Action>)
    requires Legal(c, Start(callers), acts)
    ensures Explained(c, Run(c, Start(callers), acts).sh.log)
  {
    hide Explained, Last, Run;
    HistoryHolds(c, callers, acts);
    var s := Run(c, Start(callers), acts);
    if !Quiet(s) {
      var t :| 0 <= t < |s.pcs| && !s.pcs[t].Idle?;
      assert Told(c, s.sh.log, t, s.pcs[t]);
    }
  }
}
