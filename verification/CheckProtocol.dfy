/** The recovery protocol of esp32bridge/supervisor.go as a step relation.

Any number of goroutines may call Supervisor.Check at the same time.  Each caller has a
program counter; one action runs one critical section, one bridge call or one metric update.
The bridge's answers, the deadline and context cancellation are the action's `input`, so a run
is a sequence of actions and every theorem below holds for every legal sequence. */
module CheckProtocol {
  import opened Options

  /** The part of the bridge's /api/status answer that recovery decisions look at. */
  datatype Status = Status(connected: bool, wifiConnected: bool, mqttConnected: bool) {
    predicate Healthy() { connected && wifiConnected && mqttConnected }
    predicate WiFiRestored() { connected && wifiConnected }
  }

  datatype Config = Config(maxAttempts: int, hasWiFi: bool)

  /** The four fields guarded by Supervisor.mu. */
  datatype Fields = Fields(attempts: nat, enabled: bool, inProgress: bool, manual: bool)

  /** Where a caller of Check stands.  The three `...Gauge` points lie inside a critical section:
      the flag is written, the gauge is not yet, and the mutex is held. */
  datatype PC =
    | Idle
    | Asking
    | Gating
    | Reserving
    | RefusedGauge
    | Reserved
    | Counted
    | Configuring(attempt: nat)
    | Polling(attempt: nat)
    | Selecting(attempt: nat)
    | Failing(attempt: nat)
    | Marking
    | MarkedGauge
    | Resetting(recovered: bool)
    | ResetGauge(recovered: bool)
    | Ending

  /** What the outside world answers: a status, an error, or the deadline / a cancelled context. */
  datatype Input = Answer(status: Status) | Error | GiveUp

  datatype Action = Do(caller: nat, input: Input) | Enable

  /** What a check does, in order: it is entered; its first status call is answered, or fails (None);
      Wi-Fi is configured; a later status shows it is back; the attempts are reset. */
  datatype Event =
    | Entered(caller: nat)
    | Opened(caller: nat, answer: Option<Status>)
    | ConfigureWiFi(caller: nat, attempt: nat)
    | Recovered(caller: nat, status: Status)
    | Reset(caller: nat)

  /** What the callers share.  `log` is the history the theorems speak about; no step reads it. */
  datatype Shared = Shared(
    f: Fields, mutex: bool, gauge: bool,
    attemptsTotal: nat, failuresTotal: nat, statusErrors: nat,
    log: seq<Event>)

  datatype State = State(sh: Shared, pcs: seq<PC>)

  function IdleCallers(n: nat): (pcs: seq<PC>)
    ensures |pcs| == n && forall t :: 0 <= t < n ==> pcs[t] == Idle
  {
    seq(n, _ => Idle)
  }

  const FRESH := Shared(Fields(0, false, false, false), false, false, 0, 0, 0, [])

  function Start(callers: nat): State { State(FRESH, IdleCallers(callers)) }

  predicate InCriticalSection(pc: PC) { pc.RefusedGauge? || pc.MarkedGauge? || pc.ResetGauge? }

  predicate NeedsMutex(pc: PC) {
    pc.Idle? || pc.Gating? || pc.Reserving? || pc.Counted? || pc.Marking? || pc.Resetting? || pc.Ending?
  }

  predicate CanMove(sh: Shared, pc: PC, input: Input) {
    && (NeedsMutex(pc) ==> !sh.mutex)
    // The first select of waitFor comes after a status call, which cannot itself be a deadline.
    && (pc.Polling? ==> !input.GiveUp?)
  }

  /** The decision Check takes on an answered status, up to the recovery gate. */
  function Decide(c: Config, status: Status): PC {
    if status.Healthy() then Resetting(false)
    else if !status.connected then Ending
    else if status.wifiConnected then Ending
    else if !c.hasWiFi then Ending
    else Gating
  }

  predicate MayReserve(c: Config, f: Fields) { !f.manual && f.attempts < c.maxAttempts }

  /** One step of caller `t` standing at `pc`: the new shared state and where the caller stands next. */
  function Move(c: Config, sh: Shared, t: nat, pc: PC, input: Input): (Shared, PC)
    requires CanMove(sh, pc, input)
  {
    match pc
    case Idle =>
      if sh.f.inProgress then (sh, Idle)
      else (sh.(f := sh.f.(inProgress := true), log := sh.log + [Entered(t)]), Asking)
    case Asking =>
      if input.Answer? then (sh.(log := sh.log + [Opened(t, Some(input.status))]), Decide(c, input.status))
      else (sh.(statusErrors := sh.statusErrors + 1, log := sh.log + [Opened(t, None)]), Ending)
    case Gating => (sh, if sh.f.enabled then Reserving else Ending)
    case Reserving =>
      if MayReserve(c, sh.f) then (sh.(f := sh.f.(attempts := sh.f.attempts + 1)), Reserved)
      else (sh.(f := sh.f.(manual := true), mutex := true), RefusedGauge)
    case RefusedGauge => (sh.(gauge := true, mutex := false), Ending)
    case Reserved => (sh.(attemptsTotal := sh.attemptsTotal + 1), Counted)
    case Counted => (sh, Configuring(sh.f.attempts))
    case Configuring(k) =>
      (sh.(log := sh.log + [ConfigureWiFi(t, k)]), if input.Answer? then Polling(k) else Failing(k))
    case Polling(k) =>
      if input.Error? then (sh.(statusErrors := sh.statusErrors + 1), Selecting(k))
      else if input.Answer? && input.status.WiFiRestored() then
        (sh.(log := sh.log + [Recovered(t, input.status)]), Resetting(true))
      else (sh, Selecting(k))
    case Selecting(k) => (sh, if input.GiveUp? then Failing(k) else Polling(k))
    case Failing(k) =>
      (sh.(failuresTotal := sh.failuresTotal + 1), if k >= c.maxAttempts then Marking else Ending)
    case Marking => (sh.(f := sh.f.(manual := true), mutex := true), MarkedGauge)
    case MarkedGauge => (sh.(gauge := true, mutex := false), Ending)
    case Resetting(r) =>
      (sh.(f := sh.f.(attempts := 0, manual := false), mutex := true, log := sh.log + [Reset(t)]), ResetGauge(r))
    case ResetGauge(_) => (sh.(gauge := false, mutex := false), Ending)
    case Ending => (sh.(f := sh.f.(inProgress := false)), Idle)
  }

  predicate Enabled(s: State, a: Action) {
    match a
    case Enable => !s.sh.mutex
    case Do(t, input) => t < |s.pcs| && CanMove(s.sh, s.pcs[t], input)
  }

  function Apply(c: Config, s: State, a: Action): (s': State)
    requires Enabled(s, a)
    ensures |s'.pcs| == |s.pcs|
  {
    match a
    case Enable => s.(sh := s.sh.(f := s.sh.f.(enabled := true)))
    case Do(t, input) =>
      var (sh, pc) := Move(c, s.sh, t, s.pcs[t], input);
      State(sh, s.pcs[t := pc])
  }

  /** `acts` can be taken one after the other from `s`. */
  predicate Legal(c: Config, s: State, acts: seq<Action>)
    decreases |acts|, 0
  {
    acts == [] ||
    (Legal(c, s, acts[..|acts| - 1]) && Enabled(Run(c, s, acts[..|acts| - 1]), acts[|acts| - 1]))
  }

  function Run(c: Config, s: State, acts: seq<Action>): State
    requires Legal(c, s, acts)
    decreases |acts|, 1
  {
    if acts == [] then s else Apply(c, Run(c, s, acts[..|acts| - 1]), acts[|acts| - 1])
  }

  // ---------------------------------------------------------------------------------------------
  // Reading the history

  function CallsSinceReset(log: seq<Event>): nat {
    if log == [] then 0
    else
      var before := CallsSinceReset(log[..|log| - 1]);
      match log[|log| - 1]
      case Reset(_) => 0
      case ConfigureWiFi(_, _) => before + 1
      case _ => before
  }

  function Calls(log: seq<Event>): nat {
    if log == [] then 0
    else Calls(log[..|log| - 1]) + if log[|log| - 1].ConfigureWiFi? then 1 else 0
  }

  function Successes(log: seq<Event>): nat {
    if log == [] then 0
    else Successes(log[..|log| - 1]) + if log[|log| - 1].Recovered? then 1 else 0
  }

  lemma Snoc(log: seq<Event>, e: Event)
    ensures (log + [e])[..|log + [e]| - 1] == log
    ensures CallsSinceReset(log + [e]) ==
            match e
            case Reset(_) => 0
            case ConfigureWiFi(_, _) => CallsSinceReset(log) + 1
            case _ => CallsSinceReset(log)
    ensures Successes(log + [e]) == Successes(log) + if e.Recovered? then 1 else 0
  {
    assert (log + [e])[..|log + [e]| - 1] == log;
  }

  // ---------------------------------------------------------------------------------------------
  // The invariant

  function Max0(n: int): nat { if n < 0 then 0 else n }

  ghost predicate Quiet(s: State) { forall t :: 0 <= t < |s.pcs| ==> s.pcs[t].Idle? }

  /** At most one caller is past beginCheck, and the in-progress flag says whether there is one. */
  ghost predicate Exclusive(s: State) {
    && (forall i, j :: 0 <= i < |s.pcs| && 0 <= j < |s.pcs| && !s.pcs[i].Idle? && !s.pcs[j].Idle? ==> i == j)
    && (s.sh.f.inProgress <==> !Quiet(s))
  }

  /** The flag records exhaustion: in one direction always, in the other for a positive budget. */
  ghost predicate FlagExact(c: Config, f: Fields) {
    && (f.manual ==> f.attempts >= c.maxAttempts)
    && (f.attempts >= c.maxAttempts && f.attempts > 0 ==> f.manual)
  }

  /** Attempts counted that have neither failed nor succeeded yet. */
  ghost function Open(sh: Shared): int { sh.attemptsTotal - sh.failuresTotal - Successes(sh.log) }

  ghost predicate Tally(c: Config, f: Fields, calls: nat, open: int, pc: PC) {
    var a := f.attempts;
    match pc
    case Reserved => a == calls + 1 && open == 0 && !f.manual && f.enabled
    case Counted => a == calls + 1 && open == 1 && !f.manual && f.enabled
    case Configuring(k) => k == a == calls + 1 && open == 1 && !f.manual && f.enabled
    case Polling(k) => k == a == calls && a > 0 && open == 1 && !f.manual
    case Selecting(k) => k == a == calls && a > 0 && open == 1 && !f.manual
    case Failing(k) => k == a == calls && a > 0 && open == 1 && !f.manual
    case Marking => a == calls == c.maxAttempts && a > 0 && open == 0 && !f.manual
    case Resetting(_) => a == calls && open == 0
    case ResetGauge(_) => a == calls == 0 && open == 0 && !f.manual
    case Reserving => a == calls && open == 0 && f.enabled && FlagExact(c, f)
    case RefusedGauge => a == calls && open == 0 && f.manual && FlagExact(c, f)
    case MarkedGauge => a == calls && open == 0 && f.manual && FlagExact(c, f)
    case _ => a == calls && open == 0 && FlagExact(c, f)
  }

  /** What holds of the shared state while one caller stands at `pc` (Idle: while nobody checks). */
  ghost predicate AtPC(c: Config, sh: Shared, pc: PC) {
    && sh.f.attempts <= Max0(c.maxAttempts)
    && sh.mutex == InCriticalSection(pc)
    && (!InCriticalSection(pc) ==> sh.gauge == sh.f.manual)
    && Tally(c, sh.f, CallsSinceReset(sh.log), Open(sh), pc)
  }

  /** Every ConfigureWiFi call carries its ordinal since the last reset, and that is within the budget. */
  ghost predicate LogNumbered(c: Config, log: seq<Event>) {
    forall k :: 0 <= k < |log| && log[k].ConfigureWiFi? ==>
      0 < log[k].attempt <= c.maxAttempts && log[k].attempt == CallsSinceReset(log[..k + 1])
  }

  ghost predicate Inv(c: Config, s: State) {
    && Exclusive(s)
    && (Quiet(s) ==> AtPC(c, s.sh, Idle))
    && (forall t :: 0 <= t < |s.pcs| && !s.pcs[t].Idle? ==> AtPC(c, s.sh, s.pcs[t]))
    && LogNumbered(c, s.sh.log)
  }

  lemma LogExtends(c: Config, log: seq<Event>, e: Event)
    requires LogNumbered(c, log)
    requires e.ConfigureWiFi? ==> 0 < e.attempt <= c.maxAttempts && e.attempt == CallsSinceReset(log) + 1
    ensures LogNumbered(c, log + [e])
  {
    var log' := log + [e];
    Snoc(log, e);
    forall k | 0 <= k < |log'| && log'[k].ConfigureWiFi?
      ensures 0 < log'[k].attempt <= c.maxAttempts && log'[k].attempt == CallsSinceReset(log'[..k + 1])
    {
      assert log'[..k + 1] == if k < |log| then log[..k + 1] else log';
    }
  }

  /** The event a step appends to the history, if any. */
  function Logged(t: nat, pc: PC, sh: Shared, input: Input): seq<Event> {
    match pc
    case Idle => if sh.f.inProgress then [] else [Entered(t)]
    case Asking => [Opened(t, if input.Answer? then Some(input.status) else None)]
    case Configuring(k) => [ConfigureWiFi(t, k)]
    case Polling(_) => if input.Answer? && input.status.WiFiRestored() then [Recovered(t, input.status)] else []
    case Resetting(_) => [Reset(t)]
    case _ => []
  }

  lemma MoveLogs(c: Config, sh: Shared, t: nat, pc: PC, input: Input)
    requires CanMove(sh, pc, input)
    ensures Move(c, sh, t, pc, input).0.log == sh.log + Logged(t, pc, sh, input)
  {}

  lemma MoveKeepsLog(c: Config, sh: Shared, t: nat, pc: PC, input: Input)
    requires CanMove(sh, pc, input) && AtPC(c, sh, pc) && LogNumbered(c, sh.log)
    ensures LogNumbered(c, Move(c, sh, t, pc, input).0.log)
  {
    MoveLogs(c, sh, t, pc, input);
    var e := Logged(t, pc, sh, input);
    if e != [] {
      assert e == [e[0]];
      LogExtends(c, sh.log, e[0]);
    } else {
      assert sh.log + e == sh.log;
    }
  }

  function NextCalls(pc: PC, calls: nat): nat {
    if pc.Configuring? then calls + 1 else if pc.Resetting? then 0 else calls
  }

  function NextWins(pc: PC, input: Input, wins: nat): nat {
    if pc.Polling? && input.Answer? && input.status.WiFiRestored() then wins + 1 else wins
  }

  lemma MoveCounts(c: Config, sh: Shared, t: nat, pc: PC, input: Input)
    requires CanMove(sh, pc, input)
    ensures var log := Move(c, sh, t, pc, input).0.log;
            && CallsSinceReset(log) == NextCalls(pc, CallsSinceReset(sh.log))
            && Successes(log) == NextWins(pc, input, Successes(sh.log))
  {
    MoveLogs(c, sh, t, pc, input);
    var e := Logged(t, pc, sh, input);
    if e != [] {
      assert e == [e[0]];
      Snoc(sh.log, e[0]);
    } else {
      assert sh.log + e == sh.log;
    }
  }

  lemma MoveKeepsGauge(c: Config, sh: Shared, t: nat, pc: PC, input: Input)
    requires CanMove(sh, pc, input)
    requires sh.f.attempts <= Max0(c.maxAttempts) && sh.mutex == InCriticalSection(pc)
    requires !InCriticalSection(pc) ==> sh.gauge == sh.f.manual
    requires pc.RefusedGauge? || pc.MarkedGauge? ==> sh.f.manual
    requires pc.ResetGauge? ==> !sh.f.manual
    ensures var (sh', pc') := Move(c, sh, t, pc, input);
            && sh'.f.attempts <= Max0(c.maxAttempts) && sh'.mutex == InCriticalSection(pc')
            && (!InCriticalSection(pc') ==> sh'.gauge == sh'.f.manual)
  {}

  /** What a step does to the flags and tallies, with the history's two counts as plain numbers. */
  lemma MoveKeepsTally(c: Config, sh: Shared, t: nat, pc: PC, input: Input, calls: nat, wins: nat)
    requires CanMove(sh, pc, input)
    requires sh.f.attempts <= Max0(c.maxAttempts)
    requires Tally(c, sh.f, calls, sh.attemptsTotal - sh.failuresTotal - wins, pc)
    ensures var (sh', pc') := Move(c, sh, t, pc, input);
            Tally(c, sh'.f, NextCalls(pc, calls),
                  sh'.attemptsTotal - sh'.failuresTotal - NextWins(pc, input, wins), pc')
  {}

  lemma MoveKeepsAtPC(c: Config, sh: Shared, t: nat, pc: PC, input: Input)
    requires CanMove(sh, pc, input) && AtPC(c, sh, pc)
    ensures var (sh', pc') := Move(c, sh, t, pc, input); AtPC(c, sh', pc')
  {
    MoveKeepsGauge(c, sh, t, pc, input);
    MoveKeepsTally(c, sh, t, pc, input, CallsSinceReset(sh.log), Successes(sh.log));
    MoveCounts(c, sh, t, pc, input);
    hide Move;
  }

  /** No step of a check touches the cold-start gate. */
  lemma MoveKeepsEnabled(c: Config, sh: Shared, t: nat, pc: PC, input: Input)
    requires CanMove(sh, pc, input)
    ensures Move(c, sh, t, pc, input).0.f.enabled == sh.f.enabled
  {}

  lemma DoKeepsInv(c: Config, s: State, t: nat, sh: Shared, pc: PC)
    requires Inv(c, s) && t < |s.pcs| && (s.pcs[t].Idle? ==> Quiet(s))
    requires AtPC(c, sh, pc) && LogNumbered(c, sh.log) && sh.f.inProgress == !pc.Idle?
    ensures Inv(c, State(sh, s.pcs[t := pc]))
  {
    var s' := State(sh, s.pcs[t := pc]);
    assert forall i :: 0 <= i < |s.pcs| && i != t ==> s.pcs[i].Idle? && s'.pcs[i] == s.pcs[i];
    assert Quiet(s') <==> s'.pcs[t].Idle?;
  }

  lemma MoveKeepsProgress(c: Config, sh: Shared, t: nat, pc: PC, input: Input)
    requires CanMove(sh, pc, input) && (!pc.Idle? ==> sh.f.inProgress)
    ensures var (sh', pc') := Move(c, sh, t, pc, input); !pc'.Idle? || !pc.Idle? ==> sh'.f.inProgress == !pc'.Idle?
  {}

  lemma StepKeepsInv(c: Config, s: State, a: Action)
    requires Inv(c, s) && Enabled(s, a)
    ensures Inv(c, Apply(c, s, a))
  {
    match a
    case Enable =>
      var s' := Apply(c, s, a);
      forall pc | AtPC(c, s.sh, pc) ensures AtPC(c, s'.sh, pc) {}
      assert Quiet(s') == Quiet(s);
    case Do(t, input) =>
      var pc := s.pcs[t];
      if pc.Idle? && s.sh.f.inProgress {
        assert Apply(c, s, a).pcs == s.pcs;
      } else {
        var (sh', pc') := Move(c, s.sh, t, pc, input);
        MoveKeepsAtPC(c, s.sh, t, pc, input);
        MoveKeepsLog(c, s.sh, t, pc, input);
        MoveKeepsProgress(c, s.sh, t, pc, input);
        DoKeepsInv(c, s, t, sh', pc');
      }
  }

  // ---------------------------------------------------------------------------------------------
  // Theorems over every legal run of any number of callers

  lemma FreshAtPC(c: Config)
    ensures AtPC(c, FRESH, Idle) && LogNumbered(c, FRESH.log)
  {}

  lemma QuietInv(c: Config, s: State)
    requires Quiet(s) && !s.sh.f.inProgress && AtPC(c, s.sh, Idle) && LogNumbered(c, s.sh.log)
    ensures Inv(c, s)
  {}

  lemma StartInv(c: Config, callers: nat)
    ensures Inv(c, Start(callers))
  {
    var s := Start(callers);
    FreshAtPC(c);
    assert Quiet(s);
    QuietInv(c, s);
  }

  lemma {:induction false} RunKeepsInv(c: Config, callers: nat, acts: seq<Action>)
    requires Legal(c, Start(callers), acts)
    ensures Inv(c, Run(c, Start(callers), acts))
    decreases |acts|
  {
    if acts == [] {
      StartInv(c, callers);
    } else {
      var before := acts[..|acts| - 1];
      RunKeepsInv(c, callers, before);
      StepKeepsInv(c, Run(c, Start(callers), before), acts[|acts| - 1]);
    }
  }

  /** Two callers are never both past beginCheck, so at most one recovery is in flight. */
  lemma AtMostOneRecovery(c: Config, callers: nat, acts: seq<Action>, i: nat, j: nat)
    requires Legal(c, Start(callers), acts)
    requires var s := Run(c, Start(callers), acts);
             i < |s.pcs| && j < |s.pcs| && !s.pcs[i].Idle? && !s.pcs[j].Idle?
    ensures i == j
  {
    RunKeepsInv(c, callers, acts);
  }

  predicate BetweenReservationAndCall(pc: PC) { pc.Reserved? || pc.Counted? || pc.Configuring? }

  predicate Recovering(pc: PC) {
    pc.Counted? || pc.Configuring? || pc.Polling? || pc.Selecting? || pc.Failing?
  }

  /** 1 if some caller has reserved an attempt and not yet called ConfigureWiFi, else 0. */
  ghost function PendingCalls(s: State): nat {
    if exists t :: 0 <= t < |s.pcs| && BetweenReservationAndCall(s.pcs[t]) then 1 else 0
  }

  /** 1 if some caller has counted an attempt whose outcome is not yet recorded, else 0. */
  ghost function OpenRecoveries(s: State): nat {
    if exists t :: 0 <= t < |s.pcs| && Recovering(s.pcs[t]) then 1 else 0
  }

  /** The attempt number a caller carries, where it carries one. */
  function CarriedAttempt(pc: PC, otherwise: nat): nat {
    match pc
    case Configuring(k) => k case Polling(k) => k case Selecting(k) => k case Failing(k) => k
    case _ => otherwise
  }

  lemma ActiveCaller(c: Config, s: State) returns (pc: PC)
    requires Inv(c, s)
    ensures AtPC(c, s.sh, pc)
    ensures forall t :: 0 <= t < |s.pcs| ==> s.pcs[t] == pc || s.pcs[t].Idle?
    ensures Quiet(s) ==> pc.Idle?
    ensures !Quiet(s) ==> pc in s.pcs
  {
    pc := Idle;
    if !Quiet(s) {
      var t :| 0 <= t < |s.pcs| && !s.pcs[t].Idle?;
      pc := s.pcs[t];
    }
  }

  lemma InvCounts(c: Config, s: State)
    requires Inv(c, s)
    ensures s.sh.f.attempts == CallsSinceReset(s.sh.log) + PendingCalls(s)
    ensures s.sh.attemptsTotal == s.sh.failuresTotal + Successes(s.sh.log) + OpenRecoveries(s)
    ensures forall t :: 0 <= t < |s.pcs| ==> CarriedAttempt(s.pcs[t], s.sh.f.attempts) == s.sh.f.attempts
  {
    var pc := ActiveCaller(c, s);
    if BetweenReservationAndCall(pc) || Recovering(pc) {
      var t :| 0 <= t < |s.pcs| && s.pcs[t] == pc;
    }
  }

  /** The attempt counter counts the ConfigureWiFi calls since the last reset, one ahead between the
      reservation and the call, and the attempt a caller reports is the one it reserved. */
  lemma AttemptsCountCalls(c: Config, callers: nat, acts: seq<Action>)
    requires Legal(c, Start(callers), acts)
    ensures var s := Run(c, Start(callers), acts);
            && s.sh.f.attempts == CallsSinceReset(s.sh.log) + PendingCalls(s)
            && forall t :: 0 <= t < |s.pcs| ==> CarriedAttempt(s.pcs[t], s.sh.f.attempts) == s.sh.f.attempts
  {
    RunKeepsInv(c, callers, acts);
    InvCounts(c, Run(c, Start(callers), acts));
  }

  lemma {:induction false} CallsAddUp(log: seq<Event>, i: nat, j: nat)
    requires i <= j <= |log|
    requires forall k :: i <= k < j ==> !log[k].Reset?
    ensures CallsSinceReset(log[..j]) == CallsSinceReset(log[..i]) + Calls(log[i..j])
    decreases j
  {
    if i < j {
      CallsAddUp(log, i, j - 1);
      assert log[..j][..j - 1] == log[..j - 1];
      assert log[i..j][..j - i - 1] == log[i..j - 1];
    }
  }

  lemma {:induction false} NumberedWithinBudget(c: Config, log: seq<Event>, j: nat)
    requires LogNumbered(c, log) && j <= |log|
    ensures CallsSinceReset(log[..j]) <= Max0(c.maxAttempts)
  {
    if j > 0 {
      NumberedWithinBudget(c, log, j - 1);
      assert log[..j][..j - 1] == log[..j - 1];
    }
  }

  /** In any stretch of a run without a reset, that is without a healthy status and without a
      completed recovery, ConfigureWiFi is called at most MaxRecoveryAttempts times. */
  lemma OutageBudget(c: Config, callers: nat, acts: seq<Action>, i: nat, j: nat)
    requires Legal(c, Start(callers), acts)
    requires var log := Run(c, Start(callers), acts).sh.log;
             i <= j <= |log| && forall k :: i <= k < j ==> !log[k].Reset?
    ensures Calls(Run(c, Start(callers), acts).sh.log[i..j]) <= Max0(c.maxAttempts)
  {
    RunKeepsInv(c, callers, acts);
    var log := Run(c, Start(callers), acts).sh.log;
    CallsAddUp(log, i, j);
    NumberedWithinBudget(c, log, j);
  }

  /** The gauge shows the flag whenever the mutex is free. */
  lemma GaugeFollowsFlag(c: Config, callers: nat, acts: seq<Action>)
    requires Legal(c, Start(callers), acts)
    ensures var s := Run(c, Start(callers), acts); !s.sh.mutex ==> s.sh.gauge == s.sh.f.manual
  {
    RunKeepsInv(c, callers, acts);
    var s := Run(c, Start(callers), acts);
    if !Quiet(s) {
      var t :| 0 <= t < |s.pcs| && !s.pcs[t].Idle?;
      assert AtPC(c, s.sh, s.pcs[t]);
    }
  }

  /** attempts_total = failures_total + successful recoveries, plus the one still under way. */
  lemma AttemptsAccountedFor(c: Config, callers: nat, acts: seq<Action>)
    requires Legal(c, Start(callers), acts)
    ensures var s := Run(c, Start(callers), acts);
            s.sh.attemptsTotal == s.sh.failuresTotal + Successes(s.sh.log) + OpenRecoveries(s)
  {
    RunKeepsInv(c, callers, acts);
    InvCounts(c, Run(c, Start(callers), acts));
  }

  /** The claim that manualIntervention holds, with no Check in progress, exactly when the counter
      stands at the maximum, over every run of the given number of callers. */
  ghost predicate ExhaustionExact(c: Config, callers: nat) {
    forall acts :: Legal(c, Start(callers), acts) ==>
      var s := Run(c, Start(callers), acts);
      Quiet(s) ==> (s.sh.f.manual <==> s.sh.f.attempts == c.maxAttempts)
  }

  lemma ExhaustionHolds(c: Config, callers: nat, acts: seq<Action>)
    requires c.maxAttempts >= 1 && Legal(c, Start(callers), acts)
    ensures var s := Run(c, Start(callers), acts);
            Quiet(s) ==> (s.sh.f.manual <==> s.sh.f.attempts == c.maxAttempts)
  {
    RunKeepsInv(c, callers, acts);
  }

  lemma LegalSnoc(c: Config, s: State, acts: seq<Action>, a: Action)
    requires Legal(c, s, acts) && Enabled(Run(c, s, acts), a)
    ensures Legal(c, s, acts + [a]) && Run(c, s, acts + [a]) == Apply(c, Run(c, s, acts), a)
  {
    assert (acts + [a])[..|acts|] == acts;
  }

  /** The check that a negative budget refuses: gate opened, Wi-Fi down, reservation refused. */
  function RefusedCheck(): seq<Action> {
    var down := Answer(Status(true, false, false));
    [Enable, Do(0, GiveUp), Do(0, down), Do(0, GiveUp), Do(0, GiveUp), Do(0, GiveUp), Do(0, GiveUp)]
  }

  lemma NoSteps(c: Config, s: State)
    ensures Legal(c, s, []) && Run(c, s, []) == s
  {}

  lemma RefusedCheckSetsFlag(c: Config, callers: nat)
    requires c.maxAttempts < 0 && c.hasWiFi && callers >= 1
    ensures Legal(c, Start(callers), RefusedCheck())
    ensures var s := Run(c, Start(callers), RefusedCheck()); Quiet(s) && s.sh.f.manual && s.sh.f.attempts == 0
  {
    hide Legal, Run;
    var s0 := Start(callers);
    var acts := RefusedCheck();
    var idle := s0.pcs;
    NoSteps(c, s0);
    var k := 0;
    while k < |acts|
      invariant 0 <= k <= |acts| && Legal(c, s0, acts[..k])
      invariant Run(c, s0, acts[..k]).pcs ==
                [idle, idle, idle[0 := Asking], idle[0 := Gating], idle[0 := Reserving],
                 idle[0 := RefusedGauge], idle[0 := Ending], idle][k]
      invariant Run(c, s0, acts[..k]).sh.f ==
                Fields(0, k >= 1, 2 <= k < 7, k >= 5)
      invariant Run(c, s0, acts[..k]).sh.mutex == (k == 5)
    {
      LegalSnoc(c, s0, acts[..k], acts[k]);
      assert acts[..k] + [acts[k]] == acts[..k + 1];
      k := k + 1;
    }
    assert acts[..k] == acts;
  }

  ghost predicate NeverReserves(s: State) {
    && s.sh.f.attempts == 0 && !s.sh.f.manual
    && forall t :: 0 <= t < |s.pcs| ==>
         s.pcs[t] in {Idle, Asking, Ending, Resetting(false), ResetGauge(false)}
  }

  lemma {:induction false} WithoutCredentials(c: Config, callers: nat, acts: seq<Action>)
    requires !c.hasWiFi && Legal(c, Start(callers), acts)
    ensures NeverReserves(Run(c, Start(callers), acts))
    decreases |acts|
  {
    if acts != [] {
      WithoutCredentials(c, callers, acts[..|acts| - 1]);
    }
  }

  /** Exhaustion is exact for precisely the configurations with a positive budget (the only ones
      config.go lets through), or with a negative one and no Wi-Fi credentials to recover with. */
  lemma ExhaustionExactIff(c: Config, callers: nat)
    requires callers >= 1
    ensures ExhaustionExact(c, callers) <==> c.maxAttempts >= 1 || (c.maxAttempts < 0 && !c.hasWiFi)
  {
    if c.maxAttempts >= 1 || (c.maxAttempts < 0 && !c.hasWiFi) {
      forall acts | Legal(c, Start(callers), acts)
        ensures var s := Run(c, Start(callers), acts);
                Quiet(s) ==> (s.sh.f.manual <==> s.sh.f.attempts == c.maxAttempts)
      {
        if c.maxAttempts >= 1 {
          ExhaustionHolds(c, callers, acts);
        } else {
          WithoutCredentials(c, callers, acts);
        }
      }
    } else if c.maxAttempts == 0 {
      assert Legal(c, Start(callers), []) && Quiet(Run(c, Start(callers), []));
    } else {
      RefusedCheckSetsFlag(c, callers);
    }
  }
}
