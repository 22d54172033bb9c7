/** esp32bridge/supervisor.go and metrics.go as the classes they are.  Each method is proved against
the step function of CheckProtocol; Check as a whole is proved to drive the protocol from beginCheck
to endCheck, so what CheckProtocol proves about its runs holds of this code. */
module Supervision {
  import opened Options
  import opened CheckProtocol

  /** Everything the bridge and the timers answer during one Check: the status it opens with, whether
      ConfigureWiFi succeeds, and waitFor's status answers, the ticker firing between two of them and
      the deadline (or a cancelled context) ending the wait after the last.  None is a failed call. */
  datatype Script = Script(first: Option<Status>, configured: bool, poll: Option<Status>, later: seq<Option<Status>>) {
    function Polls(): (p: seq<Option<Status>>) ensures |p| > 0 { [poll] + later }

    /** Some status answer during the wait shows the battery back on Wi-Fi. */
    ghost predicate Restores() {
      exists j :: 0 <= j < |Polls()| &&
        Polls()[j].Some? && Polls()[j].value.connected && Polls()[j].value.wifiConnected
    }
  }

  function Answered(o: Option<Status>): Input { if o.Some? then Answer(o.value) else Error }

  const TICK := Error

  /** The input the step at `pc` gets, `i` status answers of waitFor having been used up. */
  function InputAt(pc: PC, script: Script, i: nat): (input: Input)
    ensures pc.Polling? ==> !input.GiveUp?
  {
    match pc
    case Asking => Answered(script.first)
    case Configuring(_) => if script.configured then Answer(Status(true, true, true)) else Error
    case Polling(_) => if i < |script.Polls()| then Answered(script.Polls()[i]) else Error
    case Selecting(_) => if i + 1 < |script.Polls()| then TICK else GiveUp
    case _ => GiveUp
  }

  function Rank(pc: PC): nat {
    match pc
    case Asking => 15 case Gating => 14 case Reserving => 13 case Reserved => 12 case Counted => 11
    case Configuring(_) => 10 case Polling(_) => 9 case Selecting(_) => 8 case Failing(_) => 7
    case Marking => 6 case MarkedGauge => 5 case RefusedGauge => 5 case Resetting(_) => 4
    case ResetGauge(_) => 3 case Ending => 2 case Idle => 0
  }

  /** Protocol steps of one caller, from `pc` until it is idle again. */
  function Drive(c: Config, sh: Shared, pc: PC, script: Script, i: nat): (final: Shared)
    requires sh.mutex == InCriticalSection(pc)
    ensures !final.mutex
    decreases if i < |script.Polls()| then |script.Polls()| - i else 0, Rank(pc)
  {
    if pc.Idle? then sh
    else
      var (sh', pc') := Move(c, sh, 0, pc, InputAt(pc, script, i));
      Drive(c, sh', pc', script, if pc.Selecting? then i + 1 else i)
  }

  /** One call of Check: nothing if another caller is inside, else the protocol from entry to exit. */
  function CheckOnce(c: Config, sh: Shared, script: Script): (final: Shared)
    requires !sh.mutex
    ensures !final.mutex
  {
    var (sh', pc) := Move(c, sh, 0, Idle, GiveUp);
    Drive(c, sh', pc, script, 0)
  }

  class Metrics {
    var statusCheckErrorsTotal: nat
    var recoveryAttemptsTotal: nat
    var recoveryFailuresTotal: nat
    var manualInterventionRequired: bool

    constructor ()
      ensures statusCheckErrorsTotal == recoveryAttemptsTotal == recoveryFailuresTotal == 0
      ensures !manualInterventionRequired
    {
      statusCheckErrorsTotal, recoveryAttemptsTotal, recoveryFailuresTotal := 0, 0, 0;
      manualInterventionRequired := false;
    }

    method IncStatusCheckError()
      modifies `statusCheckErrorsTotal
      ensures statusCheckErrorsTotal == old(statusCheckErrorsTotal) + 1
    { statusCheckErrorsTotal := statusCheckErrorsTotal + 1; }

    method IncRecoveryAttempt()
      modifies `recoveryAttemptsTotal
      ensures recoveryAttemptsTotal == old(recoveryAttemptsTotal) + 1
    { recoveryAttemptsTotal := recoveryAttemptsTotal + 1; }

    method IncRecoveryFailure()
      modifies `recoveryFailuresTotal
      ensures recoveryFailuresTotal == old(recoveryFailuresTotal) + 1
    { recoveryFailuresTotal := recoveryFailuresTotal + 1; }

    method SetManualInterventionRequired(required: bool)
      modifies `manualInterventionRequired
      ensures manualInterventionRequired == required
    { manualInterventionRequired := required; }
  }

  class Supervisor {
    const cfg: Config
    const metrics: Metrics
    var recoveryAttempts: nat
    var recoveryEnabled: bool
    var recoveryInProgress: bool
    var manualIntervention: bool
    var trigger: bool            // the one-slot channel triggerCh holds a token
    ghost var log: seq<Event>

    /** The protocol's view of this object, its mutex free. */
    ghost function View(): (sh: Shared)
      reads this, metrics
      ensures !sh.mutex
    {
      Shared(Fields(recoveryAttempts, recoveryEnabled, recoveryInProgress, manualIntervention), false,
             metrics.manualInterventionRequired, metrics.recoveryAttemptsTotal, metrics.recoveryFailuresTotal,
             metrics.statusCheckErrorsTotal, log)
    }

    constructor (cfg: Config, metrics: Metrics)
      requires metrics.statusCheckErrorsTotal == metrics.recoveryAttemptsTotal == metrics.recoveryFailuresTotal == 0
      requires !metrics.manualInterventionRequired
      ensures this.cfg == cfg && this.metrics == metrics && !trigger
      ensures View() == FRESH
    {
      this.cfg, this.metrics := cfg, metrics;
      recoveryAttempts, recoveryEnabled, recoveryInProgress, manualIntervention := 0, false, false, false;
      trigger, log := false, [];
    }

    method TriggerCheck()
      modifies `trigger
      ensures trigger
    {
      if !trigger { trigger := true; }
    }

    method EnableRecovery()
      modifies `recoveryEnabled
      ensures State(View(), []) == Apply(cfg, State(old(View()), []), Enable)
    {
      recoveryEnabled := true;
    }

    method BeginCheck() returns (ok: bool)
      modifies `recoveryInProgress, `log
      ensures (View(), if ok then Asking else Idle) == Move(cfg, old(View()), 0, Idle, GiveUp)
    {
      if recoveryInProgress { return false; }
      recoveryInProgress := true;
      log := log + [Entered(0)];
      return true;
    }

    method EndCheck()
      modifies `recoveryInProgress
      ensures (View(), Idle) == Move(cfg, old(View()), 0, Ending, GiveUp)
      ensures forall script, i :: Drive(cfg, old(View()), Ending, script, i) == View()
    {
      recoveryInProgress := false;
      forall script, i ensures Drive(cfg, old(View()), Ending, script, i) == View() {
        assert Drive(cfg, View(), Idle, script, i) == View();
      }
    }

    method RecoveryAllowed() returns (allowed: bool)
      ensures (View(), if allowed then Reserving else Ending) == Move(cfg, View(), 0, Gating, GiveUp)
      ensures forall script, i :: Drive(cfg, View(), Gating, script, i) ==
                                  Drive(cfg, View(), if allowed then Reserving else Ending, script, i)
    {
      allowed := recoveryEnabled;
    }

    /** Two protocol steps when refused: the flag, then the gauge, both under the mutex. */
    method ReserveRecoveryAttempt() returns (ok: bool)
      modifies this`recoveryAttempts, this`manualIntervention, metrics`manualInterventionRequired
      ensures ok == MayReserve(cfg, old(View()).f)
      ensures ok ==> (View(), Reserved) == Move(cfg, old(View()), 0, Reserving, GiveUp)
      ensures !ok ==> var (sh, pc) := Move(cfg, old(View()), 0, Reserving, GiveUp);
                      pc == RefusedGauge && (View(), Ending) == Move(cfg, sh, 0, pc, GiveUp)
      ensures forall script, i :: Drive(cfg, old(View()), Reserving, script, i) ==
                                  Drive(cfg, View(), if ok then Reserved else Ending, script, i)
    {
      if manualIntervention || recoveryAttempts >= cfg.maxAttempts {
        manualIntervention := true;
        metrics.SetManualInterventionRequired(true);
        ghost var sh := Move(cfg, old(View()), 0, Reserving, GiveUp).0;
        forall script, i
          ensures Drive(cfg, old(View()), Reserving, script, i) == Drive(cfg, View(), Ending, script, i)
        {
          assert Drive(cfg, sh, RefusedGauge, script, i) == Drive(cfg, View(), Ending, script, i);
        }
        return false;
      }
      recoveryAttempts := recoveryAttempts + 1;
      return true;
    }

    method CurrentAttempts() returns (n: nat)
      ensures (View(), Configuring(n)) == Move(cfg, View(), 0, Counted, GiveUp)
      ensures forall script, i :: Drive(cfg, View(), Counted, script, i) ==
                                  Drive(cfg, View(), Configuring(n), script, i)
    {
      n := recoveryAttempts;
    }

    method MarkManualIntervention()
      modifies this`manualIntervention, metrics`manualInterventionRequired
      ensures var (sh, pc) := Move(cfg, old(View()), 0, Marking, GiveUp);
              (View(), Ending) == Move(cfg, sh, 0, pc, GiveUp)
      ensures forall script, i :: Drive(cfg, old(View()), Marking, script, i) == Drive(cfg, View(), Ending, script, i)
    {
      manualIntervention := true;
      metrics.SetManualInterventionRequired(true);
      ghost var sh := Move(cfg, old(View()), 0, Marking, GiveUp).0;
      forall script, i
        ensures Drive(cfg, old(View()), Marking, script, i) == Drive(cfg, View(), Ending, script, i)
      {
        assert Drive(cfg, sh, MarkedGauge, script, i) == Drive(cfg, View(), Ending, script, i);
      }
    }

    method ResetAttempts(ghost r: bool)
      modifies this`recoveryAttempts, this`manualIntervention, this`log, metrics`manualInterventionRequired
      ensures var (sh, pc) := Move(cfg, old(View()), 0, Resetting(r), GiveUp);
              (View(), Ending) == Move(cfg, sh, 0, pc, GiveUp)
      ensures forall script, i :: Drive(cfg, old(View()), Resetting(r), script, i) ==
                                  Drive(cfg, View(), Ending, script, i)
    {
      recoveryAttempts := 0;
      manualIntervention := false;
      log := log + [Reset(0)];
      metrics.SetManualInterventionRequired(false);
      forall script, i
        ensures Drive(cfg, old(View()), Resetting(r), script, i) == Drive(cfg, View(), Ending, script, i)
      {
        ghost var sh := Move(cfg, old(View()), 0, Resetting(r), GiveUp).0;
        assert Drive(cfg, sh, ResetGauge(r), script, i) == Drive(cfg, View(), Ending, script, i);
      }
    }

    /** Polls the bridge until Wi-Fi is back or the wait ends. */
    method WaitFor(script: Script, ghost k: nat) returns (ok: bool)
      modifies this`log, metrics`statusCheckErrorsTotal
      ensures Drive(cfg, old(View()), Polling(k), script, 0) ==
              Drive(cfg, View(), if ok then Resetting(true) else Failing(k), script, |script.Polls()|)
      ensures ok <==> script.Restores()
    {
      var polls := script.Polls();
      var i := 0;
      while true
        invariant 0 <= i < |polls|
        invariant forall j :: 0 <= j < i ==> !(polls[j].Some? && polls[j].value.WiFiRestored())
        invariant Drive(cfg, old(View()), Polling(k), script, 0) == Drive(cfg, View(), Polling(k), script, i)
        decreases |polls| - i
      {
        if polls[i].None? {
          metrics.IncStatusCheckError();
        } else if polls[i].value.WiFiRestored() {
          log := log + [Recovered(0, polls[i].value)];
          DriveIndexIrrelevant(cfg, View(), Resetting(true), script, i, |polls|);
          return true;
        }
        if i + 1 == |polls| {
          DriveIndexIrrelevant(cfg, View(), Failing(k), script, i + 1, |polls|);
          return false;
        }
        i := i + 1;
      }
    }

    method RecoverWiFi(script: Script, ghost k: nat) returns (ok: bool)
      modifies this`log, metrics`statusCheckErrorsTotal
      ensures Drive(cfg, old(View()), Configuring(k), script, 0) ==
              Drive(cfg, View(), if ok then Resetting(true) else Failing(k), script, |script.Polls()|)
      ensures ok <==> script.configured && script.Restores()
    {
      log := log + [ConfigureWiFi(0, k)];
      if !script.configured {
        DriveIndexIrrelevant(cfg, View(), Failing(k), script, 0, |script.Polls()|);
        return false;
      }
      ok := WaitFor(script, k);
    }

    /** One status check, with remediation if the battery has lost Wi-Fi.  An error is reported for a
        failed first status call and for a failed recovery, and for nothing else. */
    method Check(script: Script) returns (err: bool)
      modifies this, metrics
      ensures View() == CheckOnce(cfg, old(View()), script)
      ensures trigger == old(trigger)
      ensures err == (!old(recoveryInProgress) &&
              (script.first.None? || metrics.recoveryFailuresTotal > old(metrics.recoveryFailuresTotal)))
      ensures old(recoveryInProgress) ==> View() == old(View())
      ensures !old(recoveryInProgress) && (script.first.Some? && script.first.value.connected ==>
                                           script.first.value.wifiConnected) ==>
                var healthy := script.first.Some? && script.first.value.connected && script.first.value.mqttConnected;
                && metrics.recoveryAttemptsTotal == old(metrics.recoveryAttemptsTotal)
                && recoveryAttempts == (if healthy then 0 else old(recoveryAttempts))
                && manualIntervention == (!healthy && old(manualIntervention))
                && log == old(log) + [Entered(0), Opened(0, script.first)] + if healthy then [Reset(0)] else []
    {
      hide Drive, CheckOnce;
      ghost var goal := CheckOnce(cfg, View(), script);
      CheckOpens(cfg, View(), script);
      if !recoveryInProgress && (script.first.Some? && script.first.value.connected ==>
                                 script.first.value.wifiConnected) {
        NothingToRepair(cfg, View(), script);
      }
      var began := BeginCheck();
      if !began { return false; }
      log := log + [Opened(0, script.first)];
      if script.first.None? {
        metrics.IncStatusCheckError();
        EndCheck();
        return true;
      }
      err := ActOn(script, goal);
    }

    /** What Check does with an answered status call. */
    method ActOn(script: Script, ghost goal: Shared) returns (err: bool)
      requires script.first.Some? && goal == Drive(cfg, View(), Decide(cfg, script.first.value), script, 0)
      modifies this, metrics
      ensures View() == goal && trigger == old(trigger)
      ensures err <==> metrics.recoveryFailuresTotal > old(metrics.recoveryFailuresTotal)
    {
      hide Drive;
      var status := script.first.value;
      if status.Healthy() {
        ResetAttempts(false);
        EndCheck();
        return false;
      }
      if !status.connected {
        EndCheck();
        return false;
      }
      if status.wifiConnected {
        EndCheck();
        return false;
      }
      if !cfg.hasWiFi {
        EndCheck();
        return false;
      }
      err := Remediate(script, goal);
    }

    /** Check's second half, from recoveryAllowed on. */
    method Remediate(script: Script, ghost goal: Shared) returns (err: bool)
      requires goal == Drive(cfg, View(), Gating, script, 0)
      modifies this, metrics
      ensures View() == goal && trigger == old(trigger)
      ensures err <==> metrics.recoveryFailuresTotal > old(metrics.recoveryFailuresTotal)
    {
      var allowed := RecoveryAllowed();
      if !allowed {
        EndCheck();
        return false;
      }
      var reserved := ReserveRecoveryAttempt();
      if !reserved {
        EndCheck();
        return false;
      }
      err := Attempt(script, goal);
    }

    /** The attempt just reserved, from the attempt counter to endCheck. */
    method Attempt(script: Script, ghost goal: Shared) returns (err: bool)
      requires goal == Drive(cfg, View(), Reserved, script, 0)
      modifies this, metrics
      ensures View() == goal && trigger == old(trigger)
      ensures err <==> metrics.recoveryFailuresTotal > old(metrics.recoveryFailuresTotal)
      ensures metrics.recoveryFailuresTotal >= old(metrics.recoveryFailuresTotal)
    {
      hide Drive, Move, Calls, Successes;
      CountingStep(cfg, View(), script);
      metrics.IncRecoveryAttempt();
      assert goal == Drive(cfg, View(), Counted, script, 0);
      var attempt := CurrentAttempts();
      var recovered := RecoverWiFi(script, attempt);
      if !recovered {
        ghost var n := |script.Polls()|;
        FailingStep(cfg, View(), attempt, script, n);
        metrics.IncRecoveryFailure();
        assert goal == Drive(cfg, View(), if attempt >= cfg.maxAttempts then Marking else Ending, script, n);
        if attempt >= cfg.maxAttempts {
          MarkManualIntervention();
        }
        EndCheck();
        return true;
      }
      ResetAttempts(true);
      EndCheck();
      return false;
    }
  }

  lemma CountingStep(c: Config, sh: Shared, script: Script)
    requires !sh.mutex
    ensures Drive(c, sh, Reserved, script, 0) ==
            Drive(c, sh.(attemptsTotal := sh.attemptsTotal + 1), Counted, script, 0)
  {}

  lemma FailingStep(c: Config, sh: Shared, k: nat, script: Script, i: nat)
    requires !sh.mutex
    ensures Drive(c, sh, Failing(k), script, i) ==
            Drive(c, sh.(failuresTotal := sh.failuresTotal + 1),
                  if k >= c.maxAttempts then Marking else Ending, script, i)
  {}

  /** Past the wait, no step looks at the status answers any more. */
  lemma DriveIndexIrrelevant(c: Config, sh: Shared, pc: PC, script: Script, i: nat, j: nat)
    requires sh.mutex == InCriticalSection(pc) && Rank(pc) <= 7
    ensures Drive(c, sh, pc, script, i) == Drive(c, sh, pc, script, j)
    decreases Rank(pc)
  {
    if !pc.Idle? {
      var (sh', pc') := Move(c, sh, 0, pc, InputAt(pc, script, i));
      DriveIndexIrrelevant(c, sh', pc', script, i, j);
    }
  }

  // ---------------------------------------------------------------------------------------------
  // The driven protocol is a protocol run

  lemma MoveMutex(c: Config, sh: Shared, pc: PC, input: Input)
    requires sh.mutex == InCriticalSection(pc) && CanMove(sh, pc, input)
    ensures var (sh', pc') := Move(c, sh, 0, pc, input); sh'.mutex == InCriticalSection(pc')
  {}

  lemma MoveRank(c: Config, sh: Shared, pc: PC, input: Input)
    requires !pc.Idle? && CanMove(sh, pc, input)
    ensures (pc.Selecting? && !input.GiveUp?) || Rank(Move(c, sh, 0, pc, input).1) < Rank(pc)
  {}

  lemma MoveExtendsRun(c: Config, s0: State, acts: seq<Action>, sh: Shared, pc: PC, input: Input)
    requires |s0.pcs| == 1 && Legal(c, s0, acts) && Run(c, s0, acts) == State(sh, [pc])
    requires CanMove(sh, pc, input)
    ensures Legal(c, s0, acts + [Do(0, input)])
    ensures var (sh', pc') := Move(c, sh, 0, pc, input); Run(c, s0, acts + [Do(0, input)]) == State(sh', [pc'])
  {
    hide Move, CanMove;
    LegalSnoc(c, s0, acts, Do(0, input));
    assert forall p :: [pc][0 := p] == [p];
  }

  lemma {:induction false} DriveIsRun(c: Config, s0: State, acts: seq<Action>, sh: Shared, pc: PC,
                                      script: Script, i: nat)
    returns (all: seq<Action>)
    requires |s0.pcs| == 1 && Legal(c, s0, acts) && Run(c, s0, acts) == State(sh, [pc])
    requires sh.mutex == InCriticalSection(pc)
    ensures Legal(c, s0, all) && Run(c, s0, all) == State(Drive(c, sh, pc, script, i), [Idle])
    decreases if i < |script.Polls()| then |script.Polls()| - i else 0, Rank(pc)
  {
    hide Legal, Run, Move, Rank;
    if pc.Idle? {
      all := acts;
    } else {
      var input := InputAt(pc, script, i);
      var (sh', pc') := Move(c, sh, 0, pc, input);
      MoveMutex(c, sh, pc, input);
      MoveRank(c, sh, pc, input);
      MoveExtendsRun(c, s0, acts, sh, pc, input);
      all := DriveIsRun(c, s0, acts + [Do(0, input)], sh', pc', script, if pc.Selecting? then i + 1 else i);
    }
  }

  /** A sequence of Check calls from a fresh supervisor, EnableRecovery having been called first. */
  function Checks(c: Config, scripts: seq<Script>): (sh: Shared)
    ensures !sh.mutex
  {
    if scripts == [] then FRESH.(f := FRESH.f.(enabled := true))
    else
      var before := Checks(c, scripts[..|scripts| - 1]);
      CheckOnce(c, before, scripts[|scripts| - 1])
  }

  /** Checks made one after the other by Supervisor.Check are a legal run of the protocol, so every
      theorem of CheckProtocol applies to them. */
  lemma {:induction false} ChecksAreRun(c: Config, scripts: seq<Script>) returns (acts: seq<Action>)
    ensures Legal(c, Start(1), acts) && Run(c, Start(1), acts) == State(Checks(c, scripts), [Idle])
  {
    if scripts == [] {
      LegalSnoc(c, Start(1), [], Enable);
      acts := [] + [Enable];
      assert Run(c, Start(1), acts).pcs == [Idle];
    } else {
      acts := ChecksAreRun(c, scripts[..|scripts| - 1]);
      var before := Checks(c, scripts[..|scripts| - 1]);
      var (sh, pc) := Move(c, before, 0, Idle, GiveUp);
      MoveExtendsRun(c, Start(1), acts, before, Idle, GiveUp);
      acts := DriveIsRun(c, Start(1), acts + [Do(0, GiveUp)], sh, pc, scripts[|scripts| - 1], 0);
    }
  }

  // ---------------------------------------------------------------------------------------------
  // What one check does

  /** The failed status calls among these, up to the one that shows the battery back on Wi-Fi. */
  function FailedCalls(answers: seq<Option<Status>>): nat {
    if answers == [] then 0
    else if answers[0].None? then 1 + FailedCalls(answers[1..])
    else if answers[0].value.connected && answers[0].value.wifiConnected then 0
    else FailedCalls(answers[1..])
  }

  predicate ShowsWiFi(o: Option<Status>) { o.Some? && o.value.connected && o.value.wifiConnected }

  /** One round of the wait: a status call, and the ticker or the end. */
  lemma WaitRound(c: Config, sh: Shared, k: nat, script: Script, i: nat)
    requires !sh.mutex && i < |script.Polls()| && !ShowsWiFi(script.Polls()[i])
    ensures var failed := if script.Polls()[i].None? then 1 else 0;
            Drive(c, sh, Polling(k), script, i) ==
            Drive(c, sh.(statusErrors := sh.statusErrors + failed),
                  if i + 1 < |script.Polls()| then Polling(k) else Failing(k), script, i + 1)
  {
    var failed := if script.Polls()[i].None? then 1 else 0;
    var sh' := sh.(statusErrors := sh.statusErrors + failed);
    assert Drive(c, sh, Polling(k), script, i) == Drive(c, sh', Selecting(k), script, i);
  }

  lemma WaitAnswered(c: Config, sh: Shared, k: nat, script: Script, i: nat)
    requires !sh.mutex && i < |script.Polls()| && ShowsWiFi(script.Polls()[i])
    ensures Drive(c, sh, Polling(k), script, i) ==
            Drive(c, sh.(log := sh.log + [Recovered(0, script.Polls()[i].value)]), Resetting(true), script, i)
  {}

  lemma {:induction false} WaitFails(c: Config, sh: Shared, k: nat, script: Script, i: nat)
    requires !sh.mutex && i < |script.Polls()| && !script.Restores()
    ensures Drive(c, sh, Polling(k), script, i) ==
            Drive(c, sh.(statusErrors := sh.statusErrors + FailedCalls(script.Polls()[i..])), Failing(k), script,
                  |script.Polls()|)
    decreases |script.Polls()| - i
  {
    hide Drive;
    var polls := script.Polls();
    WaitRound(c, sh, k, script, i);
    assert polls[i..][1..] == polls[i + 1..];
    var failed := if polls[i].None? then 1 else 0;
    if i + 1 < |polls| { WaitFails(c, sh.(statusErrors := sh.statusErrors + failed), k, script, i + 1); }
  }

  lemma {:induction false} WaitSucceeds(c: Config, sh: Shared, k: nat, script: Script, i: nat)
    returns (status: Status, j: nat)
    requires !sh.mutex && i < |script.Polls()| && exists n :: i <= n < |script.Polls()| && ShowsWiFi(script.Polls()[n])
    ensures status.connected && status.wifiConnected && Some(status) in script.Polls()
    ensures Drive(c, sh, Polling(k), script, i) ==
            Drive(c, sh.(statusErrors := sh.statusErrors + FailedCalls(script.Polls()[i..]),
                         log := sh.log + [Recovered(0, status)]), Resetting(true), script, j)
    decreases |script.Polls()| - i
  {
    hide Drive;
    var polls := script.Polls();
    assert polls[i..][1..] == polls[i + 1..];
    if ShowsWiFi(polls[i]) {
      status, j := polls[i].value, i;
      assert polls[i] in polls;
      WaitAnswered(c, sh, k, script, i);
    } else {
      WaitRound(c, sh, k, script, i);
      var failed := if polls[i].None? then 1 else 0;
      status, j := WaitSucceeds(c, sh.(statusErrors := sh.statusErrors + failed), k, script, i + 1);
    }
  }

  lemma EndingEnds(c: Config, sh: Shared, script: Script, i: nat)
    requires !sh.mutex
    ensures Drive(c, sh, Ending, script, i) == sh.(f := sh.f.(inProgress := false))
  {
    assert Drive(c, sh.(f := sh.f.(inProgress := false)), Idle, script, i) == sh.(f := sh.f.(inProgress := false));
  }

  lemma FailureEnds(c: Config, sh: Shared, k: nat, script: Script, i: nat)
    requires !sh.mutex
    ensures var marks := k >= c.maxAttempts;
            Drive(c, sh, Failing(k), script, i) ==
            sh.(f := sh.f.(inProgress := false, manual := sh.f.manual || marks), gauge := sh.gauge || marks,
                failuresTotal := sh.failuresTotal + 1)
  {
    var failed := sh.(failuresTotal := sh.failuresTotal + 1);
    if k >= c.maxAttempts {
      assert Drive(c, sh, Failing(k), script, i) == Drive(c, failed, Marking, script, i);
      var marked := failed.(f := failed.f.(manual := true));
      assert Drive(c, failed, Marking, script, i) == Drive(c, marked.(mutex := true), MarkedGauge, script, i);
      EndingEnds(c, marked.(gauge := true), script, i);
    } else {
      EndingEnds(c, failed, script, i);
    }
  }

  lemma ResetEnds(c: Config, sh: Shared, r: bool, script: Script, i: nat)
    requires !sh.mutex
    ensures Drive(c, sh, Resetting(r), script, i) ==
            sh.(f := Fields(0, sh.f.enabled, false, false), gauge := false, log := sh.log + [Reset(0)])
  {
    var cleared := sh.(f := sh.f.(attempts := 0, manual := false), log := sh.log + [Reset(0)]);
    assert Drive(c, sh, Resetting(r), script, i) == Drive(c, cleared.(mutex := true), ResetGauge(r), script, i);
    EndingEnds(c, cleared.(gauge := false), script, i);
  }

  /** The attempt counted and ConfigureWiFi called. */
  lemma AttemptCalls(c: Config, sh: Shared, script: Script)
    requires !sh.mutex
    ensures var k := sh.f.attempts;
            Drive(c, sh, Reserved, script, 0) ==
            Drive(c, sh.(attemptsTotal := sh.attemptsTotal + 1, log := sh.log + [ConfigureWiFi(0, k)]),
                  if script.configured then Polling(k) else Failing(k), script, 0)
  {
    var k := sh.f.attempts;
    var counted := sh.(attemptsTotal := sh.attemptsTotal + 1);
    assert Drive(c, sh, Reserved, script, 0) == Drive(c, counted, Counted, script, 0);
    assert Drive(c, counted, Counted, script, 0) == Drive(c, counted, Configuring(k), script, 0);
  }

  lemma AttemptFails(c: Config, sh: Shared, script: Script)
    requires !sh.mutex && !(script.configured && script.Restores())
    ensures var marks := sh.f.attempts >= c.maxAttempts;
            Drive(c, sh, Reserved, script, 0) ==
            sh.(f := sh.f.(inProgress := false, manual := sh.f.manual || marks), gauge := sh.gauge || marks,
                attemptsTotal := sh.attemptsTotal + 1, failuresTotal := sh.failuresTotal + 1,
                statusErrors := sh.statusErrors + if script.configured then FailedCalls(script.Polls()) else 0,
                log := sh.log + [ConfigureWiFi(0, sh.f.attempts)])
  {
    hide Drive;
    var k := sh.f.attempts;
    AttemptCalls(c, sh, script);
    var called := sh.(attemptsTotal := sh.attemptsTotal + 1, log := sh.log + [ConfigureWiFi(0, k)]);
    assert script.Polls()[0..] == script.Polls();
    if script.configured {
      WaitFails(c, called, k, script, 0);
      var errors := sh.statusErrors + FailedCalls(script.Polls());
      FailureEnds(c, called.(statusErrors := errors), k, script, |script.Polls()|);
    } else {
      FailureEnds(c, called, k, script, 0);
    }
  }

  lemma AttemptSucceeds(c: Config, sh: Shared, script: Script) returns (status: Status)
    requires !sh.mutex && script.configured && script.Restores()
    ensures status.connected && status.wifiConnected && Some(status) in script.Polls()
    ensures Drive(c, sh, Reserved, script, 0) ==
            sh.(f := Fields(0, sh.f.enabled, false, false), gauge := false,
                attemptsTotal := sh.attemptsTotal + 1, statusErrors := sh.statusErrors + FailedCalls(script.Polls()),
                log := sh.log + [ConfigureWiFi(0, sh.f.attempts)] + [Recovered(0, status)] + [Reset(0)])
  {
    hide Drive;
    var k := sh.f.attempts;
    AttemptCalls(c, sh, script);
    var called := sh.(attemptsTotal := sh.attemptsTotal + 1, log := sh.log + [ConfigureWiFi(0, k)]);
    assert script.Polls()[0..] == script.Polls();
    var n :| 0 <= n < |script.Polls()| && ShowsWiFi(script.Polls()[n]);
    var j: nat;
    status, j := WaitSucceeds(c, called, k, script, 0);
    ResetEnds(c, called.(statusErrors := sh.statusErrors + FailedCalls(script.Polls()),
                         log := called.log + [Recovered(0, status)]), true, script, j);
  }

  lemma CheckOpens(c: Config, sh: Shared, script: Script)
    requires !sh.mutex
    ensures var begun := sh.(f := sh.f.(inProgress := true),
                             log := sh.log + [Entered(0)] + [Opened(0, script.first)]);
            CheckOnce(c, sh, script) ==
            if sh.f.inProgress then sh
            else if script.first.None? then Drive(c, begun.(statusErrors := sh.statusErrors + 1), Ending, script, 0)
            else Drive(c, begun, Decide(c, script.first.value), script, 0)
  {
    if !sh.f.inProgress {
      var entered := sh.(f := sh.f.(inProgress := true), log := sh.log + [Entered(0)]);
      assert CheckOnce(c, sh, script) == Drive(c, entered, Asking, script, 0);
    }
  }

  /** From the gate on: held back, refused, or on to the attempt. */
  lemma GateDecides(c: Config, sh: Shared, script: Script)
    requires !sh.mutex
    ensures Drive(c, sh, Gating, script, 0) ==
            if !sh.f.enabled then sh.(f := sh.f.(inProgress := false))
            else if sh.f.manual || sh.f.attempts >= c.maxAttempts then
              sh.(f := sh.f.(inProgress := false, manual := true), gauge := true)
            else Drive(c, sh.(f := sh.f.(attempts := sh.f.attempts + 1)), Reserved, script, 0)
  {
    if !sh.f.enabled {
      assert Drive(c, sh, Gating, script, 0) == Drive(c, sh, Ending, script, 0);
      EndingEnds(c, sh, script, 0);
    } else {
      assert Drive(c, sh, Gating, script, 0) == Drive(c, sh, Reserving, script, 0);
      if sh.f.manual || sh.f.attempts >= c.maxAttempts {
        var refused := sh.(f := sh.f.(manual := true));
        assert Drive(c, sh, Reserving, script, 0) == Drive(c, refused.(mutex := true), RefusedGauge, script, 0);
        EndingEnds(c, refused.(gauge := true), script, 0);
      }
    }
  }

  /** Wi-Fi is repaired only for a battery that is connected and off Wi-Fi: a check that opens with any
      other answer, or with none, configures nothing and reserves nothing; if all is well it starts the
      attempts over. */
  lemma NothingToRepair(c: Config, sh: Shared, script: Script)
    requires !sh.mutex && !sh.f.inProgress
    requires script.first.Some? && script.first.value.connected ==> script.first.value.wifiConnected
    ensures var healthy := script.first.Some? && script.first.value.connected && script.first.value.mqttConnected;
            var sh', begun := CheckOnce(c, sh, script), sh.log + [Entered(0), Opened(0, script.first)];
            && sh'.attemptsTotal == sh.attemptsTotal && sh'.failuresTotal == sh.failuresTotal
            && sh'.statusErrors == sh.statusErrors + (if script.first.None? then 1 else 0)
            && (healthy ==>
                  sh'.f == Fields(0, sh.f.enabled, false, false) && !sh'.gauge && sh'.log == begun + [Reset(0)])
            && (!healthy ==> sh'.f == sh.f && sh'.gauge == sh.gauge && sh'.log == begun)
  {
    hide Drive;
    CheckOpens(c, sh, script);
    assert sh.log + [Entered(0)] + [Opened(0, script.first)] == sh.log + [Entered(0), Opened(0, script.first)];
    var begun := sh.(f := sh.f.(inProgress := true), log := sh.log + [Entered(0)] + [Opened(0, script.first)]);
    EndingEnds(c, begun, script, 0);
    EndingEnds(c, begun.(statusErrors := sh.statusErrors + 1), script, 0);
    ResetEnds(c, begun, false, script, 0);
  }

  /** A battery that is connected and off Wi-Fi is left alone without credentials or before the gate is
      open; past the budget the check demands human intervention; otherwise it makes one attempt, which
      succeeds exactly if ConfigureWiFi does and a later status shows the battery back on Wi-Fi. */
  lemma RepairsWiFi(c: Config, sh: Shared, script: Script)
    requires !sh.mutex && !sh.f.inProgress
    requires script.first.Some? && script.first.value.connected && !script.first.value.wifiConnected
    ensures var sh', begun := CheckOnce(c, sh, script), sh.log + [Entered(0), Opened(0, script.first)];
            var held, spent := !c.hasWiFi || !sh.f.enabled, sh.f.manual || sh.f.attempts >= c.maxAttempts;
            var k, back := sh.f.attempts + 1, script.configured && script.Restores();
            && (held ==> sh' == sh.(log := begun))
            && (!held && spent ==> sh' == sh.(f := sh.f.(manual := true), gauge := true, log := begun))
            && (!held && !spent ==>
                  && sh'.attemptsTotal == sh.attemptsTotal + 1
                  && sh'.failuresTotal == sh.failuresTotal + (if back then 0 else 1)
                  && sh'.statusErrors ==
                     sh.statusErrors + (if script.configured then FailedCalls(script.Polls()) else 0))
            && (!held && !spent && !back ==>
                  && sh'.f == Fields(k, true, false, k == c.maxAttempts)
                  && sh'.gauge == (sh.gauge || k == c.maxAttempts) && sh'.log == begun + [ConfigureWiFi(0, k)])
            && (!held && !spent && back ==>
                  && sh'.f == Fields(0, true, false, false) && !sh'.gauge
                  && exists status: Status ::
                       && status.connected && status.wifiConnected && Some(status) in script.Polls()
                       && sh'.log == begun + [ConfigureWiFi(0, k), Recovered(0, status), Reset(0)])
  {
    hide Drive;
    CheckOpens(c, sh, script);
    assert sh.log + [Entered(0)] + [Opened(0, script.first)] == sh.log + [Entered(0), Opened(0, script.first)];
    var begun := sh.(f := sh.f.(inProgress := true), log := sh.log + [Entered(0)] + [Opened(0, script.first)]);
    if !c.hasWiFi {
      EndingEnds(c, begun, script, 0);
    } else {
      GateDecides(c, begun, script);
      if sh.f.enabled && !sh.f.manual && sh.f.attempts < c.maxAttempts {
        var reserved := begun.(f := begun.f.(attempts := sh.f.attempts + 1));
        if script.configured && script.Restores() {
          var status := AttemptSucceeds(c, reserved, script);
          var k := sh.f.attempts + 1;
          assert begun.log + [ConfigureWiFi(0, k)] + [Recovered(0, status)] + [Reset(0)] ==
                 begun.log + [ConfigureWiFi(0, k), Recovered(0, status), Reset(0)];
        } else {
          AttemptFails(c, reserved, script);
        }
      }
    }
  }

  /** A check that finds the battery off Wi-Fi and does not bring it back. */
  ghost predicate FailsToRestore(script: Script) {
    && script.first.Some? && script.first.value.connected && !script.first.value.wifiConnected
    && !(script.configured && script.Restores())
  }

  function Min(a: nat, b: nat): nat { if a < b then a else b }

  /** An outage that no attempt ends: after n checks ConfigureWiFi has been called min(n, max) times
      and human intervention is demanded from the max-th check on. */
  lemma {:induction false} UnbrokenOutage(c: Config, scripts: seq<Script>)
    requires c.maxAttempts >= 1 && c.hasWiFi
    requires forall i :: 0 <= i < |scripts| ==> FailsToRestore(scripts[i])
    ensures var sh := Checks(c, scripts);
            && sh.f == Fields(Min(|scripts|, c.maxAttempts), true, false, |scripts| >= c.maxAttempts)
            && Calls(sh.log) == Min(|scripts|, c.maxAttempts)
  {
    hide CheckOnce;
    if scripts != [] {
      var before := Checks(c, scripts[..|scripts| - 1]);
      UnbrokenOutage(c, scripts[..|scripts| - 1]);
      var script := scripts[|scripts| - 1];
      RepairsWiFi(c, before, script);
      NoCalls(before.log, [Entered(0), Opened(0, script.first)]);
      var call := ConfigureWiFi(0, before.f.attempts + 1);
      var log := before.log + [Entered(0), Opened(0, script.first)];
      assert (log + [call])[..|log|] == log;
    } else {
      assert Calls([]) == 0;
    }
  }

  lemma {:induction false} NoCalls(log: seq<Event>, more: seq<Event>)
    requires forall i :: 0 <= i < |more| ==> !more[i].ConfigureWiFi?
    ensures Calls(log + more) == Calls(log)
    decreases |more|
  {
    if more == [] {
      assert log + more == log;
    } else {
      NoCalls(log, more[..|more| - 1]);
      assert (log + more)[..|log + more| - 1] == log + more[..|more| - 1];
    }
  }
}
