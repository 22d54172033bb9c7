# Verification model of the Marstek exporter

The exporter polls a Marstek B2500 battery over MQTT, emulates the vendor's cloud endpoints and talks
to an ESP32 that reaches the battery over Bluetooth when its Wi-Fi is down. This project models the
parts of it that keep state, parse untrusted text or run concurrently, and proves what they promise.

- **Recovery** (`CheckProtocol`, `CheckHistory`, `Supervisor`, `PollLoop`, `Recovery`, `PollRound`,
  `ColdStart`, `WakeUps`, `PollAccounting`, `UpGauge`). `CheckProtocol` is the supervisor as a step
  relation for any number of concurrent callers, and `CheckHistory` says which answers lead to which acts;
  `Supervisor` is the same code as classes, each method proved against those steps. `Recovery` puts MQTT
  callbacks, poll loop and the supervisor's goroutine together; one action is one critical section,
  channel operation or outside answer, so a theorem about all legal action sequences is one about all
  interleavings. `PollRound` is a single poll as code, proved to take those steps. `ColdStart`, `WakeUps`,
  `PollAccounting` and `UpGauge` prove the global claims.
- **Payloads and cache** (`PayloadParser`, `Collector`). The flat key=value payload and the TTL cache
  behind the scrape.
- **Event log uploads** (`ErrInfo`, `ErrInfoCodes`, `ErrInfoLaws`, `ErrInfoForm`, `ErrInfoMetrics`,
  `ErrInfoSeries`). The puterrinfo grammar, its parser, a printer it inverts, its laws over commas, what
  malformed uploads give, and the metric series it feeds.
- **Encrypted reports** (`Base64Url`, `FormEncoding`, `Report`). The encoder script and the decoder,
  with AES as an unknown bijection on 16-byte blocks; and exactly which texts are not decoded.
- **Bluetooth** (`BleFrames`, `NotifyQueues`, `BleProtocol`, `BleSafety`, `BleExchange`,
  `BleResponses`, `BleCommands`, `BleTraffic`, `BleReplay`, `BleTime`, `BleWindows`, `BleTeardown`).
  Frames, bounded queues, and the tasks as a state machine that may be interleaved at every await, first
  without and then with a clock; what a command returns is traced back to its arrival and to the one
  request it answers, and a command that has its frames returns them.
- **Log rate limiting** (`RateLimiter`), and text primitives (`Text`, `Options`).

Functions say what a result means; methods and classes follow the source's loops and updates and are
proved against those functions; lemmas prove the promises. Four statements that look true of the
code are not, and are proved with the exact condition and a run or input that breaks them: cold-start
safety (`ColdStart.ColdStartSafeIff`), the oldest and newest time stamps (`ErrInfoLaws.TimeStamps`), the
up gauge staying down after a failed poll (`UpGauge.UpStaysDown`), and exactness of the exhaustion flag
(`CheckProtocol.ExhaustionExactIff`); the last fails only for a direct caller of NewSupervisor, since
config/config.go:125-127 rejects every budget that is not positive.

`dafny verify dfyconfig.toml` checks the whole project.

## Model

| member | source | states |
|---|---|---|
| `CheckProtocol.AtMostOneRecovery` | esp32bridge/supervisor.go:95-99 | for any number of concurrent callers of Check, at most one is ever past beginCheck, so at most one recovery is in flight |
| `CheckProtocol.AttemptsCountCalls` | esp32bridge/supervisor.go:219-235 | in every reachable state recoveryAttempts is the number of ConfigureWiFi calls since the last reset, one more between reservation and call, and the attempt number a check carries is the one it reserved |
| `CheckProtocol.OutageBudget` | esp32bridge/supervisor.go:219-229 | in any stretch of any run without a reset, ConfigureWiFi is called at most MaxRecoveryAttempts times |
| `CheckProtocol.GaugeFollowsFlag` | esp32bridge/supervisor.go:219-250 | the manual-intervention gauge equals the flag whenever the mutex is free |
| `CheckProtocol.AttemptsAccountedFor` | esp32bridge/supervisor.go:135-150 | attempts_total is failures_total plus successful recoveries plus the one still open, in every reachable state |
| `CheckProtocol.ExhaustionHolds` | esp32bridge/supervisor.go:219-250 | for a positive budget and no check in progress, manualIntervention holds exactly when recoveryAttempts equals the budget |
| `CheckProtocol.ExhaustionExactIff` | esp32bridge/supervisor.go:219-250 | the exhaustion claim holds over every run if and only if the budget is positive, or negative with no Wi-Fi credentials configured |
| `CheckProtocol.RefusedCheckSetsFlag` | esp32bridge/supervisor.go:222-226 | a concrete run with a negative budget that sets the flag while no attempt was made |
| `CheckProtocol.WithoutCredentials` | esp32bridge/supervisor.go:123-126 | without Wi-Fi credentials no run ever reserves an attempt or raises the flag |
| `CheckProtocol.MoveKeepsAtPC` | esp32bridge/supervisor.go:95-153 | every step of a check keeps the relation between counter, flag, gauge, counters and history |
| `CheckProtocol.RunKeepsInv` | esp32bridge/supervisor.go:95-250 | that relation, exclusivity and the numbering of ConfigureWiFi calls hold in every reachable state |
| `CheckHistory.EveryActExplained` | esp32bridge/supervisor.go:95-153 | over every interleaving of any number of callers each event of the history has its cause directly before it and its follow-up directly after it: ConfigureWiFi is called only by a check whose own first status showed the battery connected and off Wi-Fi, with credentials configured; attempts are reset only after a healthy first status or after Wi-Fi was seen to come back, and then always |
| `Supervision.Supervisor.constructor` | esp32bridge/supervisor.go:50-54 | a new supervisor is the protocol's start state, its channel empty |
| `Supervision.Supervisor.TriggerCheck` | esp32bridge/supervisor.go:57-62 | afterwards the one-slot channel holds a token, whether or not it held one |
| `Supervision.Supervisor.EnableRecovery` | esp32bridge/supervisor.go:64-68 | is the protocol's Enable action: only the gate changes |
| `Supervision.Supervisor.BeginCheck` | esp32bridge/supervisor.go:197-205 | admits a caller exactly when none is inside; a refused one changes nothing |
| `Supervision.Supervisor.EndCheck` | esp32bridge/supervisor.go:213-217 | clears the in-progress flag and nothing else, and ends the driven check |
| `Supervision.Supervisor.RecoveryAllowed` | esp32bridge/supervisor.go:207-211 | answers the gate without changing anything |
| `Supervision.Supervisor.ReserveRecoveryAttempt` | esp32bridge/supervisor.go:219-229 | reserves within the budget, else raises flag and gauge; exactly one or two protocol steps |
| `Supervision.Supervisor.CurrentAttempts` | esp32bridge/supervisor.go:231-235 | the attempt number the protocol hands to the recovery |
| `Supervision.Supervisor.MarkManualIntervention` | esp32bridge/supervisor.go:237-242 | flag and gauge are both up, counters untouched |
| `Supervision.Supervisor.ResetAttempts` | esp32bridge/supervisor.go:244-250 | counter, flag and gauge are all cleared and the reset is on record |
| `Supervision.Supervisor.WaitFor` | esp32bridge/supervisor.go:167-195 | succeeds exactly when some status answer before the deadline shows the battery back on Wi-Fi, and drives the protocol accordingly |
| `Supervision.Supervisor.RecoverWiFi` | esp32bridge/supervisor.go:155-165 | succeeds exactly when ConfigureWiFi did and the wait did |
| `Supervision.Supervisor.Check` | esp32bridge/supervisor.go:95-153 | one call drives the protocol from beginCheck to endCheck; an error is reported exactly for a failed first status call or a failed recovery; opened by a failed call, an unconnected battery or one on Wi-Fi it configures and reserves nothing, and opened by a healthy one it starts the attempts over |
| `Supervision.Supervisor.Remediate` | esp32bridge/supervisor.go:127-152 | the second half of Check, from the gate on, reaches the state the protocol prescribes |
| `Supervision.Supervisor.Attempt` | esp32bridge/supervisor.go:135-152 | the part of Check after a reservation, likewise |
| `Supervision.Metrics.IncRecoveryAttempt` | esp32bridge/metrics.go:107-111 | adds one to the attempt counter and touches nothing else |
| `Supervision.Metrics.IncRecoveryFailure` | esp32bridge/metrics.go:113-117 | adds one to the failure counter and touches nothing else |
| `Supervision.Metrics.SetManualInterventionRequired` | esp32bridge/metrics.go:119-123 | the gauge shows the argument |
| `Supervision.DriveIsRun` | esp32bridge/supervisor.go:95-153 | the sequence of steps one Check makes is a legal run of the protocol |
| `Supervision.ChecksAreRun` | esp32bridge/supervisor.go:79-91 | so is any sequence of Check calls, hence every protocol theorem applies to the class |
| `Supervision.UnbrokenOutage` | esp32bridge/supervisor.go:127-147 | in an outage no attempt ends, n checks call ConfigureWiFi min(n, max) times and demand human intervention from the max-th on |
| `Supervision.NothingToRepair` | esp32bridge/supervisor.go:100-122 | a check whose first status call fails, or shows the battery unconnected or on Wi-Fi, configures nothing and reserves nothing; a healthy one clears counter, flag and gauge |
| `Supervision.RepairsWiFi` | esp32bridge/supervisor.go:123-152 | a check that finds the battery connected and off Wi-Fi does nothing without credentials or before the gate is open, demands human intervention past the budget, and otherwise makes one numbered attempt, which succeeds exactly if ConfigureWiFi does and a later status shows Wi-Fi back; all counters included |
| `PollLoop.ResultHandler.UpdateMissedPolls` | main.go:206-217 | counts, or starts over and triggers at the threshold |
| `PollLoop.ResultHandler.HandleResult` | main.go:171-182 | opens the gate on a healthy result and triggers only once one has been seen |
| `PollLoop.HandleAll` | main.go:184-204 | over any results the loop triggers as often as the unhealthy runs demand, and opens the gate exactly if one result was healthy |
| `PollLoop.ExactTriggerCount` | main.go:171-217 | the number of triggers is the sum over maximal unhealthy runs after the first healthy result of floor(length / threshold), for every threshold |
| `PollLoop.MissesBounded` | main.go:206-217 | missedPolls stays at or above 0 and below the threshold |
| `Recovery.SupervisorHolds` | esp32bridge/supervisor.go:70-93 | whatever callbacks and poll loop do in between, the checks Run makes follow the protocol |
| `Recovery.SystemOutageBudget` | esp32bridge/supervisor.go:219-229 | the attempt budget in the whole system of callbacks, poll loop and Run |
| `ColdStart.ColdHolds` | main.go:171-232 | with the fallback disabled every sign of health in the system goes back to an accepted device payload, over every interleaving |
| `ColdStart.NeverConfigures` | esp32bridge/supervisor.go:123-134 | without credentials or budget ConfigureWiFi is never called |
| `ColdStart.FallbackReaches` | main.go:271-277 | a concrete run with the fallback enabled in which Wi-Fi is reconfigured before the device was heard |
| `ColdStart.ColdStartSafeIff` | main.go:266-277 | cold-start safety holds over every interleaving if and only if the fallback is off, the freshness window is negative, the budget is below one or there are no credentials |
| `ColdStart.ConfigureNeedsDeviceField` | collector/collector.go:217-312 | with the fallback off every ConfigureWiFi call is preceded by a payload with a usable number in a field the exporter knows |
| `WakeUps.NoLostTrigger` | esp32bridge/supervisor.go:57-92 | after any TriggerCheck the channel holds a token, or Run has received one, or a trigger-driven check was entered since |
| `WakeUps.ChecksWithinTriggers` | esp32bridge/supervisor.go:57-92 | trigger-driven checks never outnumber TriggerCheck calls |
| `WakeUps.ReceivedIsNeverSkipped` | esp32bridge/supervisor.go:79-92 | with Run the only caller, a tick or token it has received always leads past beginCheck |
| `WakeUps.StopsWhenCancelled` | main.go:192-203 | once the context is cancelled, and not before, Run and the poll loop can leave their selects, and having left never move again |
| `WakeUps.NothingAfterStop` | esp32bridge/supervisor.go:79-92 | after Run has ended no check is entered and Wi-Fi is not configured, and after the poll loop has ended no result is handled, whatever the others still do |
| `PollAccounting.PollsAddUp` | main.go:237-286 | at poll boundaries scrapes are the five outcomes, scrape errors are timeouts plus publish errors are the unhealthy results handled, and fallback updates do not exceed timeouts |
| `PollAccounting.TriggersOfWholeRun` | main.go:171-204 | in the running system, too, TriggerCheck calls are the sum over unhealthy runs |
| `PollAccounting.GateExact` | main.go:171-177 | over every interleaving, between polls recovery is enabled exactly if some poll so far was answered or found fresh telemetry |
| `UpGauge.DownUntilHeard` | collector/collector.go:348-359 | from any reachable state with up at 0 and no callback between replacing the cache and MarkUp, up stays 0 along every continuation in which no payload is accepted |
| `UpGauge.DownExact` | collector/collector.go:348-359 | in any reachable state up stays 0 until a further payload is accepted if and only if it is 0 and no callback stands between replacing the cache and MarkUp |
| `UpGauge.UpStaysDown` | main.go:253-282 | MarkDown after a failed poll keeps up at 0 until a further payload is accepted, whatever the fallback does, if and only if no callback was about to raise it |
| `UpGauge.RaceRaisesUp` | main.go:223-257 | a concrete run in which a callback that replaced the cache before the poll failed raises up after MarkDown, with no payload accepted since |
| `UpGauge.AlwaysStaysDownIff` | main.go:223-257 | the claim holds over every run if and only if there is no callback to race with or no payload it would accept |
| `UpGauge.UpChanges` | main.go:223-282 | over every run up goes from 1 to 0 only for a poll whose publishing failed or which timed out, from 0 to 1 only by a callback whose accepted payload has replaced the cache, and both always take effect |
| `PollRound.RunPoll` | main.go:237-286 | drains the response channel first, and has the outcome, counters, update time and up gauge that the poll loop's steps give; spelled out, which outcome follows from what, up lowered by a failed publish and a time-out and left alone otherwise, the cache filled by the fallback only after a time-out, and every counter |
| `PollRound.AwaitAnswer` | main.go:260-285 | likewise from the select on: answered, timed out or cancelled |
| `PollRound.AfterTimer` | main.go:266-282 | likewise from the response timer on: fresh telemetry, or the fallback and a timed-out poll |
| `PollRound.GiveUpPoll` | main.go:280-282 | a timed-out poll is counted once and lowers up, leaving the cache alone |
| `PollRound.HandleDevicePayload` | main.go:223-232 | an accepted payload replaces the cache, raises up and leaves a token in the channel; a rejected one changes nothing |
| `PollRound.CallbackIsRun` | main.go:223-232 | in the concurrent system, too, a callback with a rejected payload changes nothing and one with an accepted payload replaces the cache, raises up and signals |
| `PollRound.DriveStepAllowed` | main.go:237-286 | each step of such a poll is one the concurrent model allows and has the same effect there |
| `PollRound.DriveIsRun` | main.go:237-286 | a whole poll is a legal run of the concurrent system: the poll loop's steps, plus the callback's signal if the poll is answered |
| `PayloadParser.StoreToken` | collector/parser.go:12-26 | one token contributes its trimmed key and value, or nothing if blank, without "=" or without key |
| `PayloadParser.Parse` | collector/parser.go:10-28 | the loop computes the fold of its tokens, later fields overriding earlier ones |
| `PayloadParser.ParseConcatenation` | collector/parser.go:10-28 | parsing a + "," + b gives the fields of a overridden by those of b, for all strings |
| `PayloadParser.PrintParse` | collector/parser.go:10-28 | printing a clean map in any order of its keys and parsing it gives the map |
| `PayloadParser.ParseIsStable` | collector/parser.go:10-28 | whatever Parse returns is clean, so printing and parsing it again changes nothing |
| `PayloadParser.TokenExact` | collector/parser.go:12-26 | any token gives a field exactly if it has an equals sign with more than white space before the first one; key and value are what stands before and after it, trimmed |
| `PayloadParser.LastFieldWins` | collector/parser.go:10-28 | in any payload a key has the value of the last token that has it, and a key no token has is not there |
| `Text.ParseFormat` | collector/parser.go:30-40 | printing an int64 and parsing it back gives the number |
| `Text.FormatExact` | emulator/solar_errinfo.go:361 | a number is printed without plus sign or leading zeros |
| `Text.ParseIntExact` | emulator/solar_errinfo.go:262-264 | an integer is read exactly from an optional sign and one or more digits, if it fits 64 bits |
| `Text.SpaceExact` | collector/parser.go:13 | what is trimmed are the 25 characters of Unicode's White_Space property |
| `MetricCache.Collector.UpdateMetrics` | collector/collector.go:316-345 | replaces contents, update time and payload time together if any name is known, and nothing otherwise |
| `MetricCache.Collector.Update` | collector/collector.go:217-312 | offers exactly the samples of the payload's recognised fields and says whether there were any |
| `MetricCache.Collector.Collect` | collector/collector.go:195-213 | the four meta metrics, then the cached samples in order if and only if they are fresh |
| `MetricCache.Collector.HasFreshPayload` | collector/collector.go:379-390 | true exactly within the given age, never for a negative one |
| `MetricCache.AcceptsIff` | collector/collector.go:217-312 | a payload is accepted exactly when some recognised field carries a usable number |
| `MetricCache.DeviceFields` | collector/collector.go:236-304 | key by key, which field is published under which name and labels, in which order, and that nothing else is; tc_dis holding 0 is on and any other integer off |
| `MetricCache.KnownExact` | collector/collector.go:96-124 | the names the collector has a gauge for are exactly those some field is published under |
| `MetricCache.KnownFilters` | collector/collector.go:321-332 | values with known names are kept, in order, and the others dropped |
| `MetricCache.CacheIsLastAccepted` | collector/collector.go:316-345 | after any updates and rejections, contents and both times come from the last accepted update |
| `MetricCache.ScrapeShowsLastAccepted` | collector/collector.go:195-213 | after any updates and rejections a scrape emits the four meta metrics with the last accepted update's time, then its known samples in order while they are within the TTL, and nothing else |
| `MetricCache.FreshnessAgrees` | collector/collector.go:379-390 | payload_fresh and HasFreshPayload(ttl) agree at one clock reading if and only if the TTL is not negative, nothing was accepted, or the payload is older than the TTL |
| `MetricCache.ConfiguredFreshnessAgrees` | collector/collector.go:195-213 | for every positive TTL, the only ones the configuration admits, the emitted payload_fresh is what HasFreshPayload answers |
| `MetricCache.NegativeTTLDisagrees` | collector/collector.go:379-390 | a collector built with a negative TTL and a clock that has gone back makes them differ |
| `ErrInfoCodes.PackedDecodes` | emulator/solar_errinfo_codes.go:158-173 | reason and signed RSSI come back from every non-zero packing, and the zero one is a scan time-out |
| `ErrInfoCodes.OneReading` | emulator/solar_errinfo_codes.go:158-173 | every value has exactly one reading, and is a scan time-out exactly if it is 0 modulo 2^32 |
| `ErrInfoCodes.ReadingRange` | emulator/solar_errinfo_codes.go:158-173 | every value is a packing of the reason and RSSI it is decoded into |
| `ErrInfo.ParseTriple` | emulator/solar_errinfo.go:251-281 | one entry of a triple report: skipped, an error, or an event and its tallies |
| `ErrInfo.ParseTriples` | emulator/solar_errinfo.go:249-284 | the events of a triple report in order, errors and tallies written through the arguments |
| `ErrInfo.ParseQuintuple` | emulator/solar_errinfo.go:290-317 | one entry of a quintuple report |
| `ErrInfo.ParseQuintuples` | emulator/solar_errinfo.go:288-320 | the quintuples of a report in order, errors and codes written through the arguments |
| `ErrInfo.SortedKeys` | emulator/solar_errinfo.go:230-243 | the keys of a set, strictly increasing, in whatever order the map yields them |
| `ErrInfo.SplitHeader` | emulator/solar_errinfo.go:193-201 | the longest run of leading integers, and the text from the first other token on |
| `ErrInfo.ParseEvents` | emulator/solar_errinfo.go:219-243 | dispatch on the report type, and the lists and time stamps that go with it |
| `ErrInfo.ParseBody` | emulator/solar_errinfo.go:174-246 | computes the meaning of an upload, early returns and map iteration order notwithstanding |
| `ErrInfo.DistinctFacts` | emulator/solar_errinfo.go:230-243 | the distinct list is strictly increasing and holds exactly the values given |
| `ErrInfo.AscendingUnique` | emulator/solar_errinfo.go:230-243 | a strictly increasing list is determined by its elements, so map iteration order cannot show |
| `ErrInfo.TriplesTally` | emulator/solar_errinfo.go:270-281 | what the loop accumulates is, column by column, the codes, values and extreme time stamps |
| `ErrInfo.OldestExact` | emulator/solar_errinfo.go:276-278 | the oldest stamp is the minimum if and only if that is not 0 or comes last |
| `ErrInfo.NewestExact` | emulator/solar_errinfo.go:279-281 | the newest stamp is the maximum if and only if that is not negative |
| `ErrInfoLaws.NothingLost` | emulator/solar_errinfo.go:249-320 | events, quintuples and errors together are the non-blank comma-separated entries of every non-blank upload |
| `ErrInfoLaws.EntriesConcatenation` | emulator/solar_errinfo.go:251-283 | parsing a + "," + b gives the entries and errors of a followed by those of b, for all texts |
| `ErrInfoLaws.MeaningOfUpload` | emulator/solar_errinfo.go:185-225 | a UID, integer tokens and a text that does not start with an integer token are found as just these |
| `ErrInfoLaws.RoundTrip` | emulator/solar_errinfo.go:13-33 | parsing the printed form of any UID without colon or leading space, int64 header and entries of the header's arity gives them back without errors, final comma or not |
| `ErrInfoLaws.TripleReport` | emulator/solar_errinfo.go:13-33 | the same for a firmware triple report, field by field |
| `ErrInfoLaws.QuintupleReport` | emulator/solar_errinfo.go:13-33 | the same for a firmware quintuple report, field by field |
| `ErrInfoLaws.AppendEntries` | emulator/solar_errinfo.go:174-246 | appending a comma and further entries to any upload with events keeps UID and header and appends what those entries parse to, whatever white space surrounds the parts |
| `ErrInfoLaws.DistinctLists` | emulator/solar_errinfo.go:228-243 | the distinct lists of any upload are strictly increasing and set-equal to the codes and values parsed |
| `ErrInfoLaws.TimeStamps` | emulator/solar_errinfo.go:276-281 | over every upload, exactly when oldest and newest are the true minimum and maximum |
| `ErrInfoLaws.TimeStampsCanMislead` | emulator/solar_errinfo.go:276-281 | concrete uploads on which oldest is not the minimum and newest not the maximum |
| `ErrInfoLaws.PositiveTimeStamps` | emulator/solar_errinfo.go:276-281 | both are right when all time stamps are positive |
| `ErrInfoForm.HeaderExact` | emulator/solar_errinfo.go:187-219 | for every non-blank body: the UID is the first token, the header is the longest run of integer tokens after it, also when nothing follows, and report type and named fields are its numbers as far as they are there |
| `ErrInfoForm.BlankUpload` | emulator/solar_errinfo.go:178-182 | a blank body is one error and nothing else |
| `ErrInfoForm.BareHeader` | emulator/solar_errinfo.go:193-223 | an upload that ends with its header gives back UID and numbers, and no events |
| `ErrInfoForm.SplitNFacts` | emulator/solar_errinfo.go:256 | an entry is cut at its first dots, as many as there are fields less one |
| `ErrInfoForm.EntryExact` | emulator/solar_errinfo.go:251-269 | any entry is skipped exactly if blank, good exactly if it is the right number of integers with dots between them, and otherwise an error, of one kind with too few dots and of the other with enough |
| `ErrInfoForm.EntriesFilter` | emulator/solar_errinfo.go:249-284 | good entries give values, bad ones errors, blank ones nothing, one by one and in their order |
| `ErrInfoForm.EventNames` | emulator/solar_errinfo_codes.go:131-136 | every event and quintuple of every upload carries the dictionary's name for its code, or its number behind "unknown_" |
| `ErrInfoMetrics.Emulator.UpdateHeader` | emulator/solar_errinfo.go:326-339 | from any earlier length, the series left are exactly positions 0 to n-1 of the new header with its values |
| `ErrInfoMetrics.Emulator.UpdateGauges` | emulator/solar_errinfo.go:347-358 | sets the named gauges as far as the header reaches |
| `ErrInfoMetrics.Emulator.CountEvent` | emulator/solar_errinfo.go:360-376 | counts and stamps an event and puts a code-75 one under time-outs or its reason |
| `ErrInfoMetrics.Emulator.CountQuintuple` | emulator/solar_errinfo.go:377-380 | counts a quintuple under its code and name |
| `ErrInfoMetrics.Emulator.UpdateNamed` | emulator/solar_errinfo.go:343-381 | counts every event and quintuple of the upload once, in order |
| `ErrInfoMetrics.Emulator.HandleUpload` | emulator/solar_errinfo.go:436-437 | after any upload the header series are exactly its header's, and gauges and counters have followed it |
| `ErrInfoMetrics.HeaderSeriesFacts` | emulator/solar_errinfo.go:336-338 | the series of a header are one per position, each with that position's value |
| `ErrInfoMetrics.CountersExact` | emulator/solar_errinfo.go:360-380 | after any uploads the event counters add up, label by label, to everything parsed, and each code-75 event went to exactly one of time-outs and reasons |
| `ErrInfoMetrics.LastStampExact` | emulator/solar_errinfo.go:363 | the last-event gauge of a label is the stamp of the last event uploaded with it |
| `ErrInfoMetrics.SignalExact` | emulator/solar_errinfo.go:370-374 | the RSSI gauge of a reason is that of the last event uploaded that carries it |
| `ErrInfoMetrics.GaugesExact` | emulator/solar_errinfo.go:347-358 | each named gauge shows, per slot, its position of the last header long enough to have it |
| `ErrInfoMetrics.HandleUploads` | emulator/solar_errinfo.go:431-437 | any bodies sent one after the other leave the header series of the last and the gauges and counters the whole-run theorems are about |
| `ErrInfoMetrics.SeriesExact` | emulator/solar_errinfo.go:343-381 | after any bodies at all, every named gauge and the counters say exactly what was parsed |
| `ErrInfoSeries.EventTotals` | emulator/solar_errinfo.go:360-380 | the counter labelled with a UID, a slot, a code and a name holds how many events and quintuples with that code and name that device has uploaded for that slot |
| `ErrInfoSeries.WiFiTotals` | emulator/solar_errinfo.go:364-376 | every code-75 event counts as a scan time-out if its value is 0 modulo 2^32, and otherwise once under its device, slot and low byte |
| `Report.Unpad` | emulator/report.go:84-101 | computes the unpadding, with the source's four errors |
| `Report.UnpadExact` | emulator/report.go:84-101 | succeeds with p exactly on p followed by 1 to 16 bytes each holding their number |
| `Report.UnpadInvertsPad` | scripts/encrypt_report.py:24-26 | on whole blocks that is exactly pkcs7_pad of p |
| `Report.UnpadFails` | emulator/report.go:84-101 | which error a failure is, exactly |
| `Report.EachBlock` | emulator/report.go:51-54 | every block is transformed on its own and stays in its place |
| `Report.BlockwiseInverse` | emulator/report.go:51-54 | block by block, decryption undoes encryption under any bijection on blocks |
| `Report.DecryptReport` | emulator/report.go:29-63 | base64url, whole blocks only, the block loop and the padding, in this order with these errors |
| `Report.DecryptExact` | emulator/report.go:29-63 | returns p exactly when the decoded bytes are the encryption of the padded p |
| `Report.DecryptFails` | emulator/report.go:30-40 | which of the two errors comes before the padding, exactly |
| `Report.DecryptEncrypt` | emulator/report.go:29-63 | inverts the encoder, with or without base64 padding, line breaks or not |
| `Report.ReportMetrics.HandleReport` | emulator/report.go:121-142 | counts a decode error exactly when a non-empty parameter fails at some stage, and records the payload size of every decryption |
| `Report.ReportRoundTrip` | scripts/encrypt_report.py:29-42 | every list of pairs sent through all stages arrives as its first-value-wins map |
| `Report.SentIsReceived` | scripts/encrypt_report.py:39-42 | in particular what the script prints |
| `Base64Url.AlphabetExact` | scripts/encrypt_report.py:42 | a character's value is its position in the base64url alphabet of RFC 4648 |
| `Base64Url.DecodeEncode` | emulator/report.go:30-36 | the bytes come back from the padded and the unpadded encoding, whatever line breaks were put in |
| `Base64Url.QuantumBits` | scripts/encrypt_report.py:42 | the letters of a quantum hold its bytes bit by bit, filled up with zeros |
| `Base64Url.DecodeExact` | emulator/report.go:30-36 | decoding gives the data exactly for its spellings, padded or not, the unread bits of a last letter arbitrary and line breaks ignored, and fails on every other text |
| `FormEncoding.ReadArguments` | scripts/encrypt_report.py:33-38 | splits every argument at its first "=", and fails exactly if one has none |
| `FormEncoding.ParseReport` | emulator/report.go:68-80 | the first value of every key, or an error for a malformed query, whatever order the map yields its keys in |
| `FormEncoding.FirstWins` | emulator/report.go:74-78 | a key's value is that of its first pair |
| `FormEncoding.UnescapeQuote` | emulator/report.go:69 | query unescaping inverts quoting, for all bytes |
| `FormEncoding.ParseEncode` | emulator/report.go:69-72 | parsing what urlencode writes gives the pairs back, empty keys and values included |
| `FormEncoding.QuoteExact` | scripts/encrypt_report.py:39 | which bytes urlencode leaves, and how it writes the others |
| `FormEncoding.UnhexExact` | emulator/report.go:69 | a hexadecimal digit is read in upper or lower case |
| `FormEncoding.UnescapeFails` | emulator/report.go:69 | unescaping fails exactly at a percent sign without two hexadecimal digits behind it |
| `FormEncoding.UnescapeSpelling` | emulator/report.go:69 | however the bytes are spelled, with escapes of either case or more than needed, they come back |
| `FormEncoding.SegmentExact` | emulator/report.go:69 | a segment is an error exactly with a semicolon or a bad escape, skipped exactly if empty, and otherwise cut at its first equals sign, the value empty without one |
| `FormEncoding.QueryFails` | emulator/report.go:68-72 | a query is an error exactly if one of its segments is |
| `BleFrames.Checksum` | esp32/marstek_ble.py:77-79 | the loop computes the XOR of all bytes |
| `BleFrames.BuildFrame` | esp32/marstek_ble.py:166-172 | the frame, or an error for payloads over 250 bytes |
| `BleFrames.ExtractOpcode` | esp32/marstek_ble.py:71-80 | malformed, or the opcode and whether the checksum is right |
| `BleFrames.IsPrintableAscii` | esp32/marstek_ble.py:83-90 | at least two thirds of the bytes, rounded down, are printable, and there are some |
| `BleFrames.ExtractExact` | esp32/marstek_ble.py:71-80 | a frame is reported checksum-correct exactly when it has the shape and all its bytes XOR to 0 |
| `BleFrames.BuildExtract` | esp32/marstek_ble.py:166-172 | every command frame carries its opcode, payload and length, and its checksum is right |
| `BleFrames.SingleByteChange` | esp32/marstek_ble.py:71-80 | changing any single byte of a checksum-correct frame is noticed |
| `BleFrames.PrintableExact` | esp32/marstek_ble.py:83-90 | a payload counts as text exactly if it is not empty and two thirds of its bytes, rounded down, lie from 32 to 126 |
| `BleFrames.QueueableExact` | esp32/marstek_ble.py:93-109 | opcode by opcode, which well-shaped frames are queued: those whose bytes XOR to 0, and those that pass for their opcode |
| `BleFrames.ParseHistory` | esp32/webserver.py:83-99 | the loop reads the records of a history frame and nothing from any other frame |
| `BleFrames.ReadExact` | esp32/webserver.py:92-97 | every 9-byte group encodes exactly one record, the one read: big-endian, value in two's complement |
| `BleFrames.HistoryRoundTrip` | esp32/webserver.py:83-99 | any number of encoded records and up to eight bytes over give exactly the records |
| `BleFrames.NoByteMisread` | esp32/webserver.py:83-99 | the records read account for every byte but the last length mod 9 |
| `NotifyQueues.Notifications.Queue` | esp32/marstek_ble.py:50-57 | appends, dropping the oldest beyond six |
| `NotifyQueues.Notifications.Take` | esp32/marstek_ble.py:60-68 | hands out the oldest entry and removes an emptied queue |
| `NotifyQueues.Notifications.Pop` | esp32/marstek_ble.py:185 | forgets one opcode's queue |
| `NotifyQueues.Notifications.Clear` | esp32/marstek_ble.py:45-47 | forgets every queue and every mismatch count |
| `NotifyQueues.Notifications.LogCrcMismatch` | esp32/marstek_ble.py:112-122 | counts per opcode, and prints the first three and every twentieth |
| `NotifyQueues.QueueIsWindow` | esp32/marstek_ble.py:45-68 | after any operations a stored queue has one to six entries: the newest six arrivals since it was last emptied, less those read |
| `NotifyQueues.ReadInOrder` | esp32/marstek_ble.py:60-68 | reads come out in arrival order, and one is skipped only for six newer ones |
| `NotifyQueues.OthersUntouched` | esp32/marstek_ble.py:50-68 | other opcodes' queues are left alone |
| `BleSafety.HandlesSet` | esp32/marstek_ble.py:234-248 | in states "priming" and "ready" the connection, write and notify handles are set, over every interleaving |
| `BleSafety.OneListener` | esp32/marstek_ble.py:332-335 | at most one notification task is alive, that of the current session |
| `BleSafety.ConsumersExclude` | esp32/marstek_ble.py:190-217 | no two of the priming task and the command callers are inside the lock at once |
| `BleExchange.SessionsIsolated` | esp32/marstek_ble.py:326-335 | whatever is queued arrived in the current session: no frame crosses a reconnect |
| `BleExchange.ReadyIsPrimed` | esp32/marstek_ble.py:281-341 | in state "ready" the priming has read a runtime frame of at least 39 bytes that arrived in the current session |
| `BleTraffic.ModeTells` | esp32/marstek_ble.py:293-405 | over every interleaving the state names the stage ble_loop is at; only a notification task that has failed can have set it to "degraded" before ble_loop notices |
| `BleTraffic.PrimingEnds` | esp32/marstek_ble.py:281-290 | the priming succeeds exactly with a runtime frame of at least 39 bytes, fails with another frame, a lost link or at its deadline, and gives up the lock either way |
| `BleTraffic.ThreeAttempts` | esp32/marstek_ble.py:380-396 | a battery that was found is connected to at most three times before the next scan, a failed attempt being followed by the next and the third by the end of the round |
| `BleTraffic.FrameHeard` | esp32/marstek_ble.py:137-163 | a frame is queued under its opcode, the oldest of seven dropped, exactly if it is well shaped and its checksum or its shape passes; the task listens on exactly while state and session last |
| `BleTraffic.ListenerWaits` | esp32/marstek_ble.py:137-150 | a notification task whose await fails ends and sets "degraded"; one whose await times out goes on |
| `BleResponses.ReturnedFrames` | esp32/marstek_ble.py:182-217 | whatever a command returns arrived after it emptied its opcode's queue, in order, starts 0x73/0x23 and carries exactly that opcode; in between only this caller read a queue, its own, and no command emptied one |
| `BleCommands.FullCommandReturns` | esp32/marstek_ble.py:182-217 | over every run, when a command has read as many frames as it wants, one or `count`, the very next event is its return with exactly those frames |
| `BleCommands.WaitEnds` | esp32/marstek_ble.py:125-134 | in every reachable state: a look takes the first queued frame, if any; the wait goes on exactly while it is short of frames and found one or the link is alive; when it ends by a look, its deadline or a lost link, all frames read are returned |
| `BleTraffic.AnswersOneRequest` | esp32/marstek_ble.py:166-187 | between emptying its queue and returning, a command has written exactly one frame, before it read any, and that frame is well formed and carries its opcode and payload |
| `BleTraffic.CommandStarts` | esp32/marstek_ble.py:182-212 | a command is admitted exactly in state "ready"; with the lock, send_command gives up untouched if the link has gone, and otherwise the queue is emptied and the frame written unless the handle is gone or the payload over 250 bytes |
| `BleReplay.QueuesAreHistory` | esp32/marstek_ble.py:45-68 | in every reachable state the queues are what the whole history replays to on bounded queues, and every frame read was at the front of its queue |
| `BleReplay.ClearsSeparateSessions` | esp32/marstek_ble.py:234-248 | two frames arrived in the same session if and only if no clearing of the queues lies between their arrivals |
| `BleReplay.OneSessionIffUncleared` | esp32/marstek_ble.py:201-217 | a result's frames all come from one session if and only if nothing was cleared between the arrivals of the first and the last |
| `BleReplay.ReturnedUncleared` | esp32/marstek_ble.py:182-217 | if nothing was cleared while a command ran, its frames come from one session, each read took the oldest unread arrival since the queue was emptied unless six newer were kept instead, and no other opcode's queue lost a frame to a reader |
| `BleTime.TimedIsRun` | esp32/marstek_ble.py:125-134 | a run kept to the source's sleeps and deadlines is a run of the model without a clock, so all its theorems hold of it |
| `BleTime.ResultInOneSession` | esp32/marstek_ble.py:201-217 | every result comes from one session, over every interleaving: a wait of 3000 ms ends before ble_loop, having torn a link down, wakes from its 3 s and makes a new one |
| `BleWindows.WaitWindow` | esp32/marstek_ble.py:125-134 | a wait looks exactly until 3000 ms after it began and times out exactly then |
| `BleWindows.RestWindow` | esp32/marstek_ble.py:286-405 | every sleep of ble_loop ends exactly once it has lasted as long as the source says, and the priming looks for 2500 ms |
| `BleTeardown.FrameLostToTeardown` | esp32/marstek_ble.py:234-248 | a run kept to the clock in which a second frame has arrived for a waiting command, the link drops and the queues are cleared, and the command returns the first alone |
| `BleResponses.ArrivalsHold` | esp32/marstek_ble.py:152-163 | only frames with the right shape and a good checksum or an accepted shape are ever queued, under their own opcode |
| `RateLimiter.UnknownPaths.Handle` | emulator/unknown.go:36-62 | warns exactly if the path is new or its last warning is a cooldown ago, and remembers warnings only |
| `RateLimiter.LatestWarning` | emulator/unknown.go:36-40 | the map holds, for each path warned about, the time of its latest warning |
| `RateLimiter.WarningsSpaced` | emulator/unknown.go:39-40 | two warnings for one path are at least a cooldown apart |
| `RateLimiter.SuppressedHasWarning` | emulator/unknown.go:55-62 | every suppressed request has a warning for its path less than a cooldown earlier |
| `RateLimiter.WindowBound` | emulator/headers.go:13 | a window of length L holds at most floor(L / cooldown) + 1 warnings per path |
| `RateLimiter.PathsIndependent` | emulator/unknown.go:37-40 | requests for other paths change nothing |

## Left out

- MQTT and Paho, HTTP servers and clients, Prometheus registration, logging, flag and environment
  parsing, the HTML page and the response headers: libraries and I/O.
- Supervisor: timers are inputs (a tick, a deadline or a cancelled context), so nothing bounds the
  number of polls in one wait; a wait loop run by the class ends after the answers it is given.
- Supervisor: the status gauges and success time stamps of esp32bridge/metrics.go:91-99 and 125-129,
  a nil Metrics, and the early return of Run for a non-positive check interval are not modelled.
- PollLoop.HandleAll: a supervisor is always present; main.go:73-90 hands the loop a typed nil pointer
  when none is configured, which the loop's nil checks do not catch.
- Recovery: a cancelled context is noticed at the selects; where it ends a status or configure call
  early, that is one of the call's errors.
- MetricCache.Collector.UpdateMetrics: clock readings arrive as arguments in call order; under concurrent updates
  lastUpdateAt may go backwards, because collector/collector.go:338-339 reads the clock before the lock.
- MetricCache: gauge values stay texts, and which texts strconv.ParseFloat accepts is a parameter.
- Text: strings are sequences of code points; invalid UTF-8 is not modelled.
- ErrInfo: the 49 code names are a parameter, as are the descriptions used for logging; the cut of
  bodies over 4096 bytes happens before the parser.
- ErrInfoMetrics.Emulator.UpdateHeader: uploads are handled one at a time; two at once may interleave
  their series, because emulator/solar_errinfo.go:327-330 gives up the mutex before writing them.
- ErrInfoMetrics: gauge values are integers, so float64 rounding beyond 2^53 is not modelled.
- Report: the inside of AES, and any limit of url.ParseQuery on the number of parameters, are not
  modelled.
- FormEncoding: arguments are the bytes of their UTF-8 encoding.
- BleFrames.BuildFrame: opcodes are bytes by type; Python's error for one outside 0 to 255 is not modelled.
- BleProtocol: a caller may be cancelled at any await. Scanning, MTU exchange and the services found
  are only successes or failures. The hardware reset over FF06 takes the same lock and touches no queue,
  and is not modelled.
- BleTime: sleeps last at least, and waits look until, the source's milliseconds; the 20 ms between two
  looks, the library's own time-outs and the wrap-around of the tick counter are not modelled.
- BleSafety.HandlesSet: says nothing about a live notification task, because "ready" may be entered
  from a queued frame after that task has set "degraded".
- emulator/date_info.go, the web API of the ESP32 other than the history records, and the firmware and
  probe scripts other than scripts/encrypt_report.py.
- Supervision.Supervisor.constructor: the default wait time-out and poll period of lines 44-49 are not
  modelled, because timers are inputs.
- ErrInfoMetrics.Emulator.HandleUpload: the request counter and time stamp of lines 433-434 and the
  response are not modelled.
- Report.ReportMetrics.HandleReport: does not set the gauges of updateReportMetrics, which keep single
  fields as floats.
- PollRound: what the ESP32 offers as a fallback arrives as samples; which of its status fields become
  which samples (main.go:305-345) is not modelled.
- PollRound.RunPoll: a callback acts during a poll only as the signal that answers it; all other
  interleavings are in Recovery.
