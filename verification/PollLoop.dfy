/** The result handling of runPollLoop in main.go: when recovery is enabled and how many early
status checks a series of poll results triggers. */
module PollLoop {
  import opened Supervision
  import opened CheckProtocol

  datatype PollResult = Responded | FreshTelemetry | PublishFailed | TimedOut {
    predicate Healthy() { Responded? || FreshTelemetry? }
  }

  /** The loop's two variables: missedPolls and seenSuccessfulResponse. */
  datatype Misses = Misses(missed: nat, seen: bool)

  /** updateMissedPolls on a counter value: the new value and whether to trigger. */
  function CountMiss(missed: nat, r: PollResult, threshold: int): (nat, bool) {
    if r.Healthy() then (0, false)
    else if missed + 1 < threshold then (missed + 1, false)
    else (0, true)
  }

  function Handle(m: Misses, r: PollResult, threshold: int): (Misses, bool) {
    var seen := m.seen || r.Healthy();
    if seen then
      var (missed, trigger) := CountMiss(m.missed, r, threshold);
      (Misses(missed, true), trigger)
    else (m, false)
  }

  /** Triggers fired while handling `rs` from `m`. */
  function Triggers(m: Misses, rs: seq<PollResult>, threshold: int): nat
    decreases |rs|
  {
    if rs == [] then 0
    else
      var (m', trigger) := Handle(m, rs[0], threshold);
      (if trigger then 1 else 0) + Triggers(m', rs[1..], threshold)
  }

  function After(m: Misses, rs: seq<PollResult>, threshold: int): Misses
    decreases |rs|
  {
    if rs == [] then m else After(Handle(m, rs[0], threshold).0, rs[1..], threshold)
  }

  // ---------------------------------------------------------------------------------------------
  // The reference: unhealthy runs and their lengths

  function UnhealthyPrefix(rs: seq<PollResult>): (n: nat)
    ensures n <= |rs|
  {
    if rs == [] || rs[0].Healthy() then 0 else 1 + UnhealthyPrefix(rs[1..])
  }

  /** Sum over the maximal unhealthy runs of `rs` of floor(length / k). */
  function SumOverRuns(rs: seq<PollResult>, k: nat): nat
    requires k >= 1
    decreases |rs|
  {
    if rs == [] then 0
    else if rs[0].Healthy() then SumOverRuns(rs[1..], k)
    else
      var n := UnhealthyPrefix(rs);
      n / k + SumOverRuns(rs[n..], k)
  }

  function FromFirstHealthy(rs: seq<PollResult>): seq<PollResult> {
    if rs == [] || rs[0].Healthy() then rs else FromFirstHealthy(rs[1..])
  }

  /** The threshold in effect: anything below one triggers on every unhealthy result. */
  function Effective(threshold: int): nat { if threshold < 1 then 1 else threshold }

  lemma Multiples(k: int, d: int)
    requires k >= 1
    ensures (d >= 1 ==> k * d >= k) && (d <= -1 ==> k * d <= -k)
  {}

  lemma Quotients(n: nat, k: nat)
    requires k >= 1
    ensures (n + k) / k == n / k + 1
    ensures n < k ==> n / k == 0
  {
    Multiples(k, n / k);
    var d := (n + k) / k - n / k - 1;
    assert k * d == k * ((n + k) / k) - k * (n / k) - k;
    Multiples(k, d);
  }

  lemma {:induction false} TriggersOfRun(m: nat, rs: seq<PollResult>, threshold: int)
    requires m < Effective(threshold)
    ensures var n := UnhealthyPrefix(rs);
            Triggers(Misses(m, true), rs, threshold) ==
              (m + n) / Effective(threshold) + SumOverRuns(rs[n..], Effective(threshold))
    decreases |rs|
  {
    var k := Effective(threshold);
    var n := UnhealthyPrefix(rs);
    Quotients(m, k);
    if rs == [] {
    } else if rs[0].Healthy() {
      TriggersOfRun(0, rs[1..], threshold);
      RunSplits(rs[1..], k);
      assert rs[0..] == rs;
    } else {
      var missed := CountMiss(m, rs[0], threshold).0;
      OneMore(m, rs, threshold);
      RunTail(rs);
      TriggersOfRun(missed, rs[1..], threshold);
      Quotients(n - 1, k);
    }
  }

  lemma RunTail(rs: seq<PollResult>)
    requires rs != [] && !rs[0].Healthy()
    ensures var n := UnhealthyPrefix(rs);
            n >= 1 && UnhealthyPrefix(rs[1..]) == n - 1 && rs[n..] == rs[1..][n - 1..]
  {}

  /** An unhealthy result either counts or triggers. */
  lemma OneMore(m: nat, rs: seq<PollResult>, threshold: int)
    requires m < Effective(threshold) && rs != [] && !rs[0].Healthy()
    ensures var (missed, trigger) := CountMiss(m, rs[0], threshold);
            && missed < Effective(threshold) && (trigger ==> missed == 0)
            && missed + (if trigger then Effective(threshold) else 0) == m + 1
            && Triggers(Misses(m, true), rs, threshold) ==
               (if trigger then 1 else 0) + Triggers(Misses(missed, true), rs[1..], threshold)
  {}

  lemma RunSplits(rs: seq<PollResult>, k: nat)
    requires k >= 1
    ensures var n := UnhealthyPrefix(rs); SumOverRuns(rs, k) == n / k + SumOverRuns(rs[n..], k)
  {
    if UnhealthyPrefix(rs) == 0 { assert rs[0..] == rs; }
  }

  /** The number of TriggerCheck calls, for every series of poll results and every threshold, is the
      sum over the maximal unhealthy runs after the first healthy result of floor(length / threshold). */
  lemma {:induction false} ExactTriggerCount(rs: seq<PollResult>, threshold: int)
    ensures Triggers(Misses(0, false), rs, threshold) == SumOverRuns(FromFirstHealthy(rs), Effective(threshold))
  {
    if rs == [] {
    } else if rs[0].Healthy() {
      TriggersOfRun(0, rs[1..], threshold);
      RunSplits(rs[1..], Effective(threshold));
    } else {
      ExactTriggerCount(rs[1..], threshold);
    }
  }

  /** The miss counter stays below the threshold, and nothing triggers before the first healthy result. */
  lemma {:induction false} MissesBounded(m: Misses, rs: seq<PollResult>, threshold: int)
    requires m.missed < Effective(threshold) && (!m.seen ==> m.missed == 0)
    ensures After(m, rs, threshold).missed < Effective(threshold)
    ensures After(m, rs, threshold).seen <==> m.seen || exists i :: 0 <= i < |rs| && rs[i].Healthy()
    ensures !After(m, rs, threshold).seen ==> Triggers(m, rs, threshold) == 0
    decreases |rs|
  {
    if rs != [] {
      var m' := Handle(m, rs[0], threshold).0;
      MissesBounded(m', rs[1..], threshold);
      assert forall i :: 1 <= i < |rs| ==> rs[i] == rs[1..][i - 1];
      assert (exists i :: 0 <= i < |rs| && rs[i].Healthy()) <==>
             rs[0].Healthy() || exists i :: 0 <= i < |rs[1..]| && rs[1..][i].Healthy();
    }
  }

  lemma {:induction false} TriggersSnoc(m: Misses, rs: seq<PollResult>, r: PollResult, threshold: int)
    ensures var (m', trigger) := Handle(After(m, rs, threshold), r, threshold);
            && After(m, rs + [r], threshold) == m'
            && Triggers(m, rs + [r], threshold) == Triggers(m, rs, threshold) + (if trigger then 1 else 0)
    decreases |rs|
  {
    if rs == [] {
      assert After(m, [r], threshold) == After(Handle(m, r, threshold).0, [], threshold);
    } else {
      assert (rs + [r])[1..] == rs[1..] + [r];
      TriggersSnoc(Handle(m, rs[0], threshold).0, rs[1..], r, threshold);
    }
  }

  /** The variables of runPollLoop's closure handleResult. */
  class ResultHandler {
    var missedPolls: nat
    var seenSuccessfulResponse: bool

    constructor ()
      ensures missedPolls == 0 && !seenSuccessfulResponse
    {
      missedPolls, seenSuccessfulResponse := 0, false;
    }

    method UpdateMissedPolls(r: PollResult, threshold: int) returns (trigger: bool)
      modifies `missedPolls
      ensures (missedPolls, trigger) == CountMiss(old(missedPolls), r, threshold)
    {
      if r.Healthy() {
        missedPolls := 0;
        return false;
      }
      missedPolls := missedPolls + 1;
      if missedPolls < threshold { return false; }
      missedPolls := 0;
      return true;
    }

    method HandleResult(r: PollResult, threshold: int, supervisor: Supervisor) returns (triggered: bool)
      modifies this, supervisor`recoveryEnabled, supervisor`trigger
      ensures (Misses(missedPolls, seenSuccessfulResponse), triggered) ==
              Handle(Misses(old(missedPolls), old(seenSuccessfulResponse)), r, threshold)
      ensures supervisor.recoveryEnabled == (old(supervisor.recoveryEnabled) || r.Healthy())
      ensures supervisor.trigger == (old(supervisor.trigger) || triggered)
    {
      triggered := false;
      if r.Healthy() {
        seenSuccessfulResponse := true;
        supervisor.EnableRecovery();
      }
      if seenSuccessfulResponse {
        triggered := UpdateMissedPolls(r, threshold);
        if triggered { supervisor.TriggerCheck(); }
      }
    }
  }

  /** The loop of runPollLoop over the results its polls return. */
  method HandleAll(results: seq<PollResult>, threshold: int, supervisor: Supervisor) returns (triggers: nat)
    modifies supervisor`recoveryEnabled, supervisor`trigger
    ensures triggers == SumOverRuns(FromFirstHealthy(results), Effective(threshold))
    ensures supervisor.recoveryEnabled ==
            (old(supervisor.recoveryEnabled) || exists i :: 0 <= i < |results| && results[i].Healthy())
    ensures supervisor.trigger == (old(supervisor.trigger) || triggers > 0)
  {
    var state := new ResultHandler();
    triggers := 0;
    var i := 0;
    while i < |results|
      invariant 0 <= i <= |results|
      invariant fresh(state)
      invariant triggers + Triggers(Misses(state.missedPolls, state.seenSuccessfulResponse), results[i..], threshold)
                == Triggers(Misses(0, false), results, threshold)
      invariant supervisor.recoveryEnabled ==
                (old(supervisor.recoveryEnabled) || exists j :: 0 <= j < i && results[j].Healthy())
      invariant supervisor.trigger == (old(supervisor.trigger) || triggers > 0)
    {
      assert results[i..][1..] == results[i + 1..];
      var triggered := state.HandleResult(results[i], threshold, supervisor);
      if triggered { triggers := triggers + 1; }
      i := i + 1;
    }
    ExactTriggerCount(results, threshold);
  }
}
