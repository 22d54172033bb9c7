/** How long the waits and sleeps of BleTime last, in terms of when they began. */
module BleWindows {
  import opened Options
  import opened NotifyQueues
  import opened BleProtocol
  import opened BleSafety
  import opened BleExchange
  import opened BleResponses
  import opened BleTime

  /** The clock and state after the first `n` actions of a run. */
  ghost function After(callers: nat, acts: seq<TimedAction>, n: nat): Timed
    requires TimedLegal(TimedStart(callers), acts) && n <= |acts|
  {
    PrefixLegal(callers, acts, n);
    TimedRun(TimedStart(callers), acts[..n])
  }

  lemma {:induction false} PrefixLegal(callers: nat, acts: seq<TimedAction>, n: nat)
    requires TimedLegal(TimedStart(callers), acts) && n <= |acts|
    ensures TimedLegal(TimedStart(callers), acts[..n])
    decreases |acts|
  {
    hide TimedEnabled, TimedStart, TimedRun;
    if n < |acts| {
      PrefixLegal(callers, acts[..|acts| - 1], n);
      assert acts[..|acts| - 1][..n] == acts[..n];
    } else {
      assert acts[..n] == acts;
    }
  }

  /** The run's next state. */
  lemma NextState(callers: nat, acts: seq<TimedAction>, n: nat)
    requires TimedLegal(TimedStart(callers), acts) && n < |acts|
    ensures TimedEnabled(After(callers, acts, n), acts[n])
    ensures After(callers, acts, n + 1) == TimedApply(After(callers, acts, n), acts[n])
  {
    hide TimedEnabled, TimedStart, TimedApply;
    PrefixLegal(callers, acts, n + 1);
    PrefixLegal(callers, acts, n);
    assert acts[..n + 1][..|acts[..n + 1]| - 1] == acts[..n];
  }

  lemma CallersCounted(callers: nat, acts: seq<TimedAction>, n: nat)
    requires TimedLegal(TimedStart(callers), acts) && n <= |acts|
    ensures var t := After(callers, acts, n); |t.due| == |t.s.callers|
  {
    hide TimedRun, TimedStart, TimedLegal;
    PrefixLegal(callers, acts, n);
    TimeHolds(callers, acts[..n]);
  }

  // ---------------------------------------------------------------------------------------------
  // A command's wait

  lemma WaitBegins(t: Timed, a: TimedAction, i: nat)
    requires TimedEnabled(t, a) && |t.due| == |t.s.callers| && i < |t.s.callers|
    requires var s' := TimedApply(t, a).s; i < |s'.callers| && NewWait(t.s.callers[i], s'.callers[i])
    ensures TimedApply(t, a).due[i] == t.now + 3000
  {
    hide MainMove, NotifierMove, MainEnabled, NotifierEnabled, CallerMove, CallerEnabled;
    match a
    case Pass(_) =>
    case Do(MainStep(input)) => MainKeepsCallers(t.s, input);
    case Do(CallerStep(j, input)) => if i != j { OthersStay(t.s, j, input, i); }
    case Do(NotifierStep(k, input)) => NotifierFrame(t.s, k, input);
  }

  lemma OthersStay(s: State, j: nat, input: Input, i: nat)
    requires j < |s.callers| && i < |s.callers| && i != j
    ensures var s' := CallerMove(s, j, input); |s'.callers| == |s.callers| && s'.callers[i] == s.callers[i]
  {
    hide Polled, Front;
    if s.callers[j].Waiting? { PolledFrame(s, Caller(j), Key(s.callers[j].cmd)); }
  }

  lemma WaitStays(t: Timed, a: TimedAction, i: nat)
    requires TimedEnabled(t, a) && |t.due| == |t.s.callers| && i < |t.s.callers|
    requires var s' := TimedApply(t, a).s; |s'.callers| == |t.s.callers| && s'.callers[i] == t.s.callers[i]
    ensures TimedApply(t, a).due[i] == t.due[i] && TimedApply(t, a).now >= t.now
  {
    hide MainMove, NotifierMove, CallerMove, MainEnabled, NotifierEnabled, CallerEnabled;
  }

  /** From its beginning, at step `j`, a wait lasts 3000 ms: as long as caller `i` is in it, its next look
      is possible exactly before 3000 ms have passed, and its end by time-out exactly after. */
  lemma {:induction false} WaitWindow(callers: nat, acts: seq<TimedAction>, j: nat, n: nat, i: nat)
    requires TimedLegal(TimedStart(callers), acts) && j < n <= |acts|
    requires forall m :: j <= m <= n ==> i < |After(callers, acts, m).s.callers|
    requires NewWait(After(callers, acts, j).s.callers[i], After(callers, acts, j + 1).s.callers[i])
    requires forall m :: j < m <= n ==>
               After(callers, acts, m).s.callers[i] == After(callers, acts, j + 1).s.callers[i]
    ensures var began, t := After(callers, acts, j).now, After(callers, acts, n);
            && (TimedEnabled(t, Do(CallerStep(i, Go))) <==> t.now < began + 3000)
            && (TimedEnabled(t, Do(CallerStep(i, Expire))) <==> began + 3000 <= t.now)
  {
    hide After, TimedApply;
    DueStays(callers, acts, j, n, i);
    CallersCounted(callers, acts, n);
  }

  lemma {:induction false} DueStays(callers: nat, acts: seq<TimedAction>, j: nat, n: nat, i: nat)
    requires TimedLegal(TimedStart(callers), acts) && j < n <= |acts|
    requires forall m :: j <= m <= n ==> i < |After(callers, acts, m).s.callers|
    requires NewWait(After(callers, acts, j).s.callers[i], After(callers, acts, j + 1).s.callers[i])
    requires forall m :: j < m <= n ==>
               After(callers, acts, m).s.callers[i] == After(callers, acts, j + 1).s.callers[i]
    ensures i < |After(callers, acts, n).due| && After(callers, acts, n).due[i] == After(callers, acts, j).now + 3000
    decreases n
  {
    hide After, TimedApply, TimedLegal, TimedEnabled, TimedStart;
    CallersCounted(callers, acts, n);
    CallersCounted(callers, acts, n - 1);
    NextState(callers, acts, n - 1);
    if n == j + 1 {
      WaitBegins(After(callers, acts, j), acts[j], i);
    } else {
      DueStays(callers, acts, j, n - 1, i);
      assert After(callers, acts, n - 1).s.callers[i] == After(callers, acts, n).s.callers[i];
      SameCallers(After(callers, acts, n - 1), acts[n - 1]);
      WaitStays(After(callers, acts, n - 1), acts[n - 1], i);
    }
  }

  lemma SameCallers(t: Timed, a: TimedAction)
    requires TimedEnabled(t, a)
    ensures |TimedApply(t, a).s.callers| == |t.s.callers|
  {
    hide MainMove, NotifierMove, CallerMove, MainEnabled, NotifierEnabled, CallerEnabled;
    match a
    case Pass(_) =>
    case Do(MainStep(input)) => MainKeepsCallers(t.s, input);
    case Do(CallerStep(j, input)) => CallersStay(t.s, j, input);
    case Do(NotifierStep(k, input)) => NotifierFrame(t.s, k, input);
  }

  lemma CallersStay(s: State, j: nat, input: Input)
    requires j < |s.callers|
    ensures |CallerMove(s, j, input).callers| == |s.callers|
  {
    hide Polled, Front;
    if s.callers[j].Waiting? { PolledFrame(s, Caller(j), Key(s.callers[j].cmd)); }
  }

  // ---------------------------------------------------------------------------------------------
  // The sleeps and the wait of ble_loop

  /** How long ble_loop rests at `to`, coming from `from`: five seconds after a failed scan, ten after one
      that found nothing, four after the last failed setup, three after a lost link; one second more than
      its number after a failed attempt; a quarter of a second after connecting and 80 ms before the priming. */
  function Rest(from: MainPC, a: TimedAction, to: MainPC): nat {
    match to
    case Pausing =>
      (match from
       case ScanningPC => if a == Do(MainStep(Expire)) then 10000 else 5000
       case Retrying(_) => 4000
       case _ => 3000)
    case Retrying(a) => 1000 + 1000 * a
    case Settling(_) => 250
    case PrimeSleep(_) => 80
    case _ => 0
  }

  lemma OthersKeepClock(t: Timed, a: TimedAction)
    requires TimedEnabled(t, a) && !(a.Do? && a.a.MainStep?)
    ensures var t' := TimedApply(t, a);
            t'.s.main == t.s.main && t'.wake == t.wake && t'.primeDue == t.primeDue && t'.now >= t.now
  {
    hide MainMove, NotifierMove, CallerMove, MainEnabled, NotifierEnabled, CallerEnabled;
    match a
    case Pass(_) =>
    case Do(CallerStep(j, input)) => CallerKeepsLink(t.s, j, input);
    case Do(NotifierStep(k, input)) => NotifierFrame(t.s, k, input);
  }

  lemma MainClock(t: Timed, a: TimedAction)
    requires TimedEnabled(t, a)
    ensures var t' := TimedApply(t, a);
            && (t'.s.main != t.s.main ==>
                  && t'.wake == t.now + Rest(t.s.main, a, t'.s.main)
                  && (t'.s.main.PrimeWaiting? && !t.s.main.PrimeWaiting? ==> t'.primeDue == t.now + 2500))
            && (t'.s.main == t.s.main ==> t'.wake == t.wake && t'.primeDue == t.primeDue)
  {
    hide MainMove, MainEnabled;
    if !(a.Do? && a.a.MainStep?) { OthersKeepClock(t, a); }
  }

  lemma {:induction false} RestStays(callers: nat, acts: seq<TimedAction>, j: nat, n: nat)
    requires TimedLegal(TimedStart(callers), acts) && j < n <= |acts|
    requires After(callers, acts, j).s.main != After(callers, acts, j + 1).s.main
    requires forall m :: j < m <= n ==> After(callers, acts, m).s.main == After(callers, acts, j + 1).s.main
    ensures var t0, t := After(callers, acts, j), After(callers, acts, n);
            && t.wake == t0.now + Rest(t0.s.main, acts[j], t.s.main)
            && (t.s.main.PrimeWaiting? && !t0.s.main.PrimeWaiting? ==> t.primeDue == t0.now + 2500)
    decreases n
  {
    hide After, TimedApply, TimedLegal, TimedEnabled, TimedStart;
    NextState(callers, acts, n - 1);
    MainClock(After(callers, acts, n - 1), acts[n - 1]);
    if n > j + 1 {
      RestStays(callers, acts, j, n - 1);
      assert After(callers, acts, n - 1).s.main == After(callers, acts, n).s.main;
    }
  }

  predicate Resting(pc: MainPC) { pc.Pausing? || pc.Retrying? || pc.Settling? || pc.PrimeSleep? }

  /** Wherever ble_loop arrived at step `j`, while it has stayed there: a sleep can end exactly once it has
      lasted as long as the source says, and the priming looks for its runtime frame for 2500 ms. */
  lemma RestWindow(callers: nat, acts: seq<TimedAction>, j: nat, n: nat)
    requires TimedLegal(TimedStart(callers), acts) && j < n <= |acts|
    requires After(callers, acts, j).s.main != After(callers, acts, j + 1).s.main
    requires forall m :: j < m <= n ==> After(callers, acts, m).s.main == After(callers, acts, j + 1).s.main
    ensures var t0, t := After(callers, acts, j), After(callers, acts, n);
            && (Resting(t.s.main) ==>
                  (TimedEnabled(t, Do(MainStep(Go))) <==> t0.now + Rest(t0.s.main, acts[j], t.s.main) <= t.now))
            && (t.s.main.PrimeWaiting? && !t0.s.main.PrimeWaiting? ==>
                  && (TimedEnabled(t, Do(MainStep(Go))) <==> t.now < t0.now + 2500)
                  && (TimedEnabled(t, Do(MainStep(Expire))) <==> t0.now + 2500 <= t.now))
  {
    hide After;
    RestStays(callers, acts, j, n);
  }
}
