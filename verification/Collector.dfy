/** collector/collector.go: the TTL cache of the last accepted device payload.

Gauge values stay opaque: a value read from a payload is its trimmed text, and whether
strconv.ParseFloat accepts a text is a parameter.  Clock readings are nanoseconds. */
module MetricCache {
  import opened Options
  import opened Text
  import opened PayloadParser

  datatype Reading = FromText(text: string) | Flag(on: bool) | Given(value: real)

  datatype Sample = Sample(name: string, value: Reading, labels: seq<string>)

  const KNOWN: set<string> := {
    "battery_soc_percent", "battery_remaining_wh", "battery_dod_percent", "output_threshold_watts",
    "daily_battery_charge_wh", "daily_battery_discharge_wh", "daily_load_charge_wh", "daily_load_discharge_wh",
    "rated_output_watts", "rated_input_watts", "surplus_feed_in_enabled", "solar_input_watts", "output_watts",
    "output_enabled", "temperature_celsius", "extra_pack_connected", "battery_pack_soc_percent", "mqtt_m_channel"
  }

  /** How one payload field becomes a sample; Inverted is the tc_dis flag, an integer with 0 meaning on. */
  datatype Rule = Plain(key: string, name: string, labels: seq<string>) | Inverted(key: string, name: string)

  const BATTERY: seq<Rule> := [
    Plain("pe", "battery_soc_percent", []), Plain("kn", "battery_remaining_wh", []),
    Plain("do", "battery_dod_percent", []), Plain("lv", "output_threshold_watts", []),
    Plain("bc", "daily_battery_charge_wh", [])
  ]

  const TOTALS: seq<Rule> := [
    Plain("bs", "daily_battery_discharge_wh", []), Plain("pt", "daily_load_charge_wh", []),
    Plain("it", "daily_load_discharge_wh", []), Plain("lmo", "rated_output_watts", []),
    Plain("lmi", "rated_input_watts", []), Inverted("tc_dis", "surplus_feed_in_enabled")
  ]

  const CHANNELS: seq<Rule> := [
    Plain("w1", "solar_input_watts", ["1"]), Plain("w2", "solar_input_watts", ["2"]),
    Plain("g1", "output_watts", ["1"]), Plain("g2", "output_watts", ["2"]), Plain("o1", "output_enabled", ["1"]),
    Plain("o2", "output_enabled", ["2"])
  ]

  const SENSORS: seq<Rule> := [
    Plain("tl", "temperature_celsius", ["min"]), Plain("th", "temperature_celsius", ["max"]),
    Plain("b1", "extra_pack_connected", ["1"]), Plain("b2", "extra_pack_connected", ["2"])
  ]

  const PACKS: seq<Rule> := [
    Plain("pe", "battery_pack_soc_percent", ["0"]), Plain("a1", "battery_pack_soc_percent", ["1"]),
    Plain("a2", "battery_pack_soc_percent", ["2"]), Plain("m0", "mqtt_m_channel", ["0"]),
    Plain("m1", "mqtt_m_channel", ["1"]), Plain("m2", "mqtt_m_channel", ["2"]), Plain("m3", "mqtt_m_channel", ["3"])
  ]

  /** The fields Update looks at, in the order it looks at them. */
  const RULES: seq<Rule> := BATTERY + TOTALS + CHANNELS + SENSORS + PACKS

  type FloatSyntax = string -> bool

  predicate Usable(isFloat: FloatSyntax, m: map<string, string>, r: Rule) {
    r.key in m && if r.Plain? then isFloat(Trim(m[r.key])) else ParseInt(Trim(m[r.key])).Some?
  }

  function SampleOf(m: map<string, string>, r: Rule): Sample
    requires r.key in m
  {
    match r
    case Plain(key, name, labels) => Sample(name, FromText(Trim(m[key])), labels)
    case Inverted(key, name) => Sample(name, Flag(ParseInt(Trim(m[key])) == Some(0)), [])
  }

  /** What one field contributes. */
  function Part(isFloat: FloatSyntax, m: map<string, string>, r: Rule): seq<Sample> {
    if Usable(isFloat, m, r) then [SampleOf(m, r)] else []
  }

  function Samples(isFloat: FloatSyntax, m: map<string, string>, rules: seq<Rule>): seq<Sample> {
    if rules == [] then []
    else Samples(isFloat, m, rules[..|rules| - 1]) + Part(isFloat, m, rules[|rules| - 1])
  }

  /** The samples Update hands to UpdateMetrics. */
  function DeviceSamples(isFloat: FloatSyntax, payload: string): seq<Sample> {
    Samples(isFloat, Parsed(payload), RULES)
  }

  function Known(values: seq<Sample>): seq<Sample> {
    if values == [] then []
    else (if values[0].name in KNOWN then [values[0]] else []) + Known(values[1..])
  }

  /** The cache fields UpdateMetrics replaces together. */
  datatype Cache = Cache(cached: seq<Sample>, lastUpdateAt: Option<int>, lastPayloadUnix: int)

  const EMPTY := Cache([], None, 0)

  function Unix(now: int): int { now / 1_000_000_000 }

  function Commit(c: Cache, values: seq<Sample>, now: int): Cache {
    if Known(values) == [] then c else Cache(Known(values), Some(now), Unix(now))
  }

  predicate Fresh(c: Cache, ttl: int, now: int) {
    c.lastUpdateAt.Some? && now - c.lastUpdateAt.value <= ttl
  }

  predicate HasFresh(c: Cache, maxAge: int, now: int) { maxAge >= 0 && Fresh(c, maxAge, now) }

  datatype Metric =
    | Up(on: bool) | LastUpdate(unix: int) | LastPayload(unix: int) | PayloadFresh(on: bool) | Gauge(sample: Sample)

  function Gauges(samples: seq<Sample>): (ms: seq<Metric>)
    ensures |ms| == |samples| && forall i :: 0 <= i < |samples| ==> ms[i] == Gauge(samples[i])
  {
    seq(|samples|, i requires 0 <= i < |samples| => Gauge(samples[i]))
  }

  /** What a scrape emits at `now`: the four meta metrics, then the cached samples if they are fresh. */
  function Emitted(c: Cache, up: bool, ttl: int, now: int): seq<Metric> {
    [Up(up), LastUpdate(c.lastPayloadUnix), LastPayload(c.lastPayloadUnix), PayloadFresh(Fresh(c, ttl, now))] +
    if Fresh(c, ttl, now) then Gauges(c.cached) else []
  }

  class Collector {
    const ttl: int
    const isFloat: FloatSyntax
    var cached: seq<Sample>
    var lastUpdateAt: Option<int>
    var lastPayloadUnix: int
    var up: bool
    var scrapesTotal: nat
    var scrapeErrorsTotal: nat
    var pollTimeoutsTotal: nat
    var pollPublishErrorsTotal: nat
    var esp32FallbackUpdates: nat

    function View(): Cache reads this { Cache(cached, lastUpdateAt, lastPayloadUnix) }

    constructor (ttl: int, isFloat: FloatSyntax)
      ensures this.ttl == ttl && this.isFloat == isFloat
      ensures View() == EMPTY && !up
      ensures scrapesTotal == scrapeErrorsTotal == pollTimeoutsTotal == pollPublishErrorsTotal == 0
      ensures esp32FallbackUpdates == 0
    {
      this.ttl, this.isFloat := ttl, isFloat;
      cached, lastUpdateAt, lastPayloadUnix, up := [], None, 0, false;
      scrapesTotal, scrapeErrorsTotal, pollTimeoutsTotal, pollPublishErrorsTotal, esp32FallbackUpdates := 0, 0, 0, 0, 0;
    }

    method UpdateMetrics(values: seq<Sample>, now: int) returns (ok: bool)
      modifies `cached, `lastUpdateAt, `lastPayloadUnix
      ensures View() == Commit(old(View()), values, now)
      ensures ok <==> Known(values) != []
    {
      if |values| == 0 { return false; }
      var metrics := [];
      var i := 0;
      while i < |values|
        invariant 0 <= i <= |values|
        invariant metrics + Known(values[i..]) == Known(values)
      {
        assert values[i..][1..] == values[i + 1..];
        if values[i].name in KNOWN {
          metrics := metrics + [values[i]];
        }
        i := i + 1;
      }
      if |metrics| == 0 { return false; }
      cached := metrics;
      lastUpdateAt := Some(now);
      lastPayloadUnix := Unix(now);
      return true;
    }

    method Update(payload: string, now: int) returns (ok: bool)
      modifies `cached, `lastUpdateAt, `lastPayloadUnix
      ensures View() == Commit(old(View()), DeviceSamples(isFloat, payload), now)
      ensures ok <==> DeviceSamples(isFloat, payload) != []
    {
      hide RULES, BATTERY, TOTALS, CHANNELS, SENSORS, PACKS, Trim, ParseInt, SampleOf, Known, Parsed;
      KnownDeviceSamples(isFloat, payload);
      var m := Parse(payload);
      if |m| == 0 {
        NothingUsable(isFloat, m, RULES);
        return false;
      }
      var metrics := [];
      var i := 0;
      while i < |RULES|
        invariant 0 <= i <= |RULES| && metrics == Samples(isFloat, m, RULES[..i])
        invariant View() == old(View())
      {
        assert RULES[..i + 1][..i] == RULES[..i];
        if Usable(isFloat, m, RULES[i]) { metrics := metrics + [SampleOf(m, RULES[i])]; }
        i := i + 1;
      }
      assert RULES[..i] == RULES;
      ok := UpdateMetrics(metrics, now);
    }

    method Collect(now: int) returns (emitted: seq<Metric>)
      ensures emitted == Emitted(View(), up, ttl, now)
    {
      var isFresh := lastUpdateAt.Some? && now - lastUpdateAt.value <= ttl;
      var meta := [Up(up), LastUpdate(lastPayloadUnix), LastPayload(lastPayloadUnix), PayloadFresh(isFresh)];
      emitted := meta;
      if !isFresh { return; }
      var i := 0;
      while i < |cached|
        invariant 0 <= i <= |cached|
        invariant emitted == meta + Gauges(cached)[..i]
      {
        emitted := emitted + [Gauge(cached[i])];
        i := i + 1;
      }
    }

    method HasFreshPayload(maxAge: int, now: int) returns (isFresh: bool)
      ensures isFresh == HasFresh(View(), maxAge, now)
      ensures isFresh <==> lastUpdateAt.Some? && maxAge >= 0 && now - lastUpdateAt.value <= maxAge
    {
      if maxAge < 0 { return false; }
      if lastUpdateAt.None? { return false; }
      return now - lastUpdateAt.value <= maxAge;
    }

    method MarkUp() modifies `up ensures up { up := true; }

    method MarkDown() modifies `up ensures !up { up := false; }

    method IncScrape()
      modifies `scrapesTotal
      ensures scrapesTotal == old(scrapesTotal) + 1
    { scrapesTotal := scrapesTotal + 1; }

    method IncPollTimeout()
      modifies `scrapeErrorsTotal, `pollTimeoutsTotal
      ensures scrapeErrorsTotal == old(scrapeErrorsTotal) + 1 && pollTimeoutsTotal == old(pollTimeoutsTotal) + 1
    { scrapeErrorsTotal, pollTimeoutsTotal := scrapeErrorsTotal + 1, pollTimeoutsTotal + 1; }

    method IncPollPublishError()
      modifies `scrapeErrorsTotal, `pollPublishErrorsTotal
      ensures scrapeErrorsTotal == old(scrapeErrorsTotal) + 1
      ensures pollPublishErrorsTotal == old(pollPublishErrorsTotal) + 1
    { scrapeErrorsTotal, pollPublishErrorsTotal := scrapeErrorsTotal + 1, pollPublishErrorsTotal + 1; }

    method IncESP32FallbackUpdate()
      modifies `esp32FallbackUpdates
      ensures esp32FallbackUpdates == old(esp32FallbackUpdates) + 1
    { esp32FallbackUpdates := esp32FallbackUpdates + 1; }
  }

  lemma {:induction false} NothingUsable(isFloat: FloatSyntax, m: map<string, string>, rules: seq<Rule>)
    requires forall i :: 0 <= i < |rules| ==> !Usable(isFloat, m, rules[i])
    ensures Samples(isFloat, m, rules) == []
  {
    if rules != [] { NothingUsable(isFloat, m, rules[..|rules| - 1]); }
  }

  lemma {:induction false} SomethingUsable(isFloat: FloatSyntax, m: map<string, string>, rules: seq<Rule>, i: nat)
    requires i < |rules| && Usable(isFloat, m, rules[i])
    ensures Samples(isFloat, m, rules) != []
  {
    if i < |rules| - 1 { SomethingUsable(isFloat, m, rules[..|rules| - 1], i); }
  }

  lemma RuleNamesKnown(i: nat)
    requires i < |RULES|
    ensures RULES[i].name in KNOWN
  {}

  lemma BatteryNames(name: string)
    requires name in {"battery_soc_percent", "battery_remaining_wh", "battery_dod_percent", "output_threshold_watts",
             "daily_battery_charge_wh"}
    ensures exists r :: r in BATTERY && r.name == name
  {
    assert BATTERY[0] in BATTERY && BATTERY[0].name == "battery_soc_percent";
    assert BATTERY[1] in BATTERY && BATTERY[1].name == "battery_remaining_wh";
    assert BATTERY[2] in BATTERY && BATTERY[2].name == "battery_dod_percent";
    assert BATTERY[3] in BATTERY && BATTERY[3].name == "output_threshold_watts";
    assert BATTERY[4] in BATTERY && BATTERY[4].name == "daily_battery_charge_wh";
  }

  lemma TotalsNames(name: string)
    requires name in {"daily_battery_discharge_wh", "daily_load_charge_wh", "daily_load_discharge_wh",
             "rated_output_watts", "rated_input_watts", "surplus_feed_in_enabled"}
    ensures exists r :: r in TOTALS && r.name == name
  {
    assert TOTALS[0] in TOTALS && TOTALS[0].name == "daily_battery_discharge_wh";
    assert TOTALS[1] in TOTALS && TOTALS[1].name == "daily_load_charge_wh";
    assert TOTALS[2] in TOTALS && TOTALS[2].name == "daily_load_discharge_wh";
    assert TOTALS[3] in TOTALS && TOTALS[3].name == "rated_output_watts";
    assert TOTALS[4] in TOTALS && TOTALS[4].name == "rated_input_watts";
    assert TOTALS[5] in TOTALS && TOTALS[5].name == "surplus_feed_in_enabled";
  }

  lemma ChannelNames(name: string)
    requires name in {"solar_input_watts", "output_watts", "output_enabled"}
    ensures exists r :: r in CHANNELS && r.name == name
  {
    assert CHANNELS[0] in CHANNELS && CHANNELS[0].name == "solar_input_watts";
    assert CHANNELS[2] in CHANNELS && CHANNELS[2].name == "output_watts";
    assert CHANNELS[4] in CHANNELS && CHANNELS[4].name == "output_enabled";
  }

  lemma SensorNames(name: string)
    requires name in {"temperature_celsius", "extra_pack_connected"}
    ensures exists r :: r in SENSORS && r.name == name
  {
    assert SENSORS[0] in SENSORS && SENSORS[0].name == "temperature_celsius";
    assert SENSORS[2] in SENSORS && SENSORS[2].name == "extra_pack_connected";
  }

  lemma PackNames(name: string)
    requires name in {"battery_pack_soc_percent", "mqtt_m_channel"}
    ensures exists r :: r in PACKS && r.name == name
  {
    assert PACKS[0] in PACKS && PACKS[0].name == "battery_pack_soc_percent";
    assert PACKS[3] in PACKS && PACKS[3].name == "mqtt_m_channel";
  }

  /** The names the collector has a gauge for are exactly those some field is published under. */
  lemma KnownExact(name: string)
    ensures name in KNOWN <==> exists r :: r in RULES && r.name == name
  {
    hide BATTERY, TOTALS, CHANNELS, SENSORS, PACKS;
    if name in KNOWN {
      if name in {"battery_soc_percent", "battery_remaining_wh", "battery_dod_percent", "output_threshold_watts",
                  "daily_battery_charge_wh"} {
        BatteryNames(name);
      }
      if name in {"daily_battery_discharge_wh", "daily_load_charge_wh", "daily_load_discharge_wh",
                  "rated_output_watts", "rated_input_watts", "surplus_feed_in_enabled"} {
        TotalsNames(name);
      }
      if name in {"solar_input_watts", "output_watts", "output_enabled"} {
        ChannelNames(name);
      }
      if name in {"temperature_celsius", "extra_pack_connected"} {
        SensorNames(name);
      }
      if name in {"battery_pack_soc_percent", "mqtt_m_channel"} {
        PackNames(name);
      }
    }
    if r :| r in RULES && r.name == name {
      var i :| 0 <= i < |RULES| && RULES[i] == r;
      RuleNamesKnown(i);
    }
  }

  /** Filtering by name works value by value, so it keeps the known ones in their order. */
  lemma {:induction false} KnownFilters(a: seq<Sample>, b: seq<Sample>, x: Sample)
    ensures Known(a + b) == Known(a) + Known(b)
    ensures Known([x]) == if x.name in KNOWN then [x] else []
  {
    assert [x][1..] == [];
    if a == [] {
      assert a + b == b;
    } else {
      assert (a + b)[1..] == a[1..] + b;
      KnownFilters(a[1..], b, x);
    }
  }

  lemma {:induction false} SamplesKnown(isFloat: FloatSyntax, m: map<string, string>, rules: seq<Rule>)
    requires forall i :: 0 <= i < |rules| ==> rules[i].name in KNOWN
    ensures Known(Samples(isFloat, m, rules)) == Samples(isFloat, m, rules)
  {
    if rules != [] {
      var n := |rules| - 1;
      SamplesKnown(isFloat, m, rules[..n]);
      if Usable(isFloat, m, rules[n]) {
        KnownFilters(Samples(isFloat, m, rules[..n]), [SampleOf(m, rules[n])], SampleOf(m, rules[n]));
      } else {
        assert Samples(isFloat, m, rules[..n]) + [] == Samples(isFloat, m, rules[..n]);
      }
    }
  }

  /** Every sample Update builds carries a registered name. */
  lemma KnownDeviceSamples(isFloat: FloatSyntax, payload: string)
    ensures Known(DeviceSamples(isFloat, payload)) == DeviceSamples(isFloat, payload)
  {
    forall i | 0 <= i < |RULES| ensures RULES[i].name in KNOWN { RuleNamesKnown(i); }
    SamplesKnown(isFloat, Parsed(payload), RULES);
  }

  lemma {:induction false} SamplesAppend(isFloat: FloatSyntax, m: map<string, string>, a: seq<Rule>, b: seq<Rule>)
    ensures Samples(isFloat, m, a + b) == Samples(isFloat, m, a) + Samples(isFloat, m, b)
    decreases |b|
  {
    hide Part;
    if b == [] {
      assert a + b == a;
    } else {
      assert (a + b)[..|a + b| - 1] == a + b[..|b| - 1];
      SamplesAppend(isFloat, m, a, b[..|b| - 1]);
    }
  }

  lemma NextRule(isFloat: FloatSyntax, m: map<string, string>, rules: seq<Rule>, n: nat, r: Rule)
    requires n < |rules| && rules[n] == r
    ensures Samples(isFloat, m, rules[..n + 1]) == Samples(isFloat, m, rules[..n]) + Part(isFloat, m, r)
  {
    assert rules[..n + 1][..n] == rules[..n];
  }

  function Number(isFloat: FloatSyntax, m: map<string, string>, key: string, name: string, labels: seq<string>):
    seq<Sample>
  {
    if key in m && isFloat(Trim(m[key])) then [Sample(name, FromText(Trim(m[key])), labels)] else []
  }

  lemma NextNumber(isFloat: FloatSyntax, m: map<string, string>, rules: seq<Rule>, n: nat,
                   key: string, name: string, labels: seq<string>)
    requires n < |rules| && rules[n] == Plain(key, name, labels)
    ensures Samples(isFloat, m, rules[..n + 1]) ==
            Samples(isFloat, m, rules[..n]) + Number(isFloat, m, key, name, labels)
  {
    NextRule(isFloat, m, rules, n, Plain(key, name, labels));
  }

  function FeedIn(m: map<string, string>): seq<Sample> {
    if "tc_dis" !in m || ParseInt(Trim(m["tc_dis"])).None? then []
    else [Sample("surplus_feed_in_enabled", Flag(ParseInt(Trim(m["tc_dis"])).value == 0), [])]
  }

  lemma NoRules(isFloat: FloatSyntax, m: map<string, string>, rules: seq<Rule>)
    ensures Samples(isFloat, m, rules[..0]) == [] && rules[..|rules|] == rules
  {}

  lemma BatteryFields(isFloat: FloatSyntax, m: map<string, string>)
    ensures Samples(isFloat, m, BATTERY) ==
            Number(isFloat, m, "pe", "battery_soc_percent", []) +
            Number(isFloat, m, "kn", "battery_remaining_wh", []) +
            Number(isFloat, m, "do", "battery_dod_percent", []) +
            Number(isFloat, m, "lv", "output_threshold_watts", []) +
            Number(isFloat, m, "bc", "daily_battery_charge_wh", [])
  {
    hide Samples, Trim, ParseInt, Number;
    NoRules(isFloat, m, BATTERY);
    NextNumber(isFloat, m, BATTERY, 0, "pe", "battery_soc_percent", []);
    NextNumber(isFloat, m, BATTERY, 1, "kn", "battery_remaining_wh", []);
    NextNumber(isFloat, m, BATTERY, 2, "do", "battery_dod_percent", []);
    NextNumber(isFloat, m, BATTERY, 3, "lv", "output_threshold_watts", []);
    NextNumber(isFloat, m, BATTERY, 4, "bc", "daily_battery_charge_wh", []);
  }

  lemma TotalsFields(isFloat: FloatSyntax, m: map<string, string>)
    ensures Samples(isFloat, m, TOTALS) ==
            Number(isFloat, m, "bs", "daily_battery_discharge_wh", []) +
            Number(isFloat, m, "pt", "daily_load_charge_wh", []) +
            Number(isFloat, m, "it", "daily_load_discharge_wh", []) +
            Number(isFloat, m, "lmo", "rated_output_watts", []) + Number(isFloat, m, "lmi", "rated_input_watts", []) +
            FeedIn(m)
  {
    hide Samples, Trim, ParseInt, Number;
    NoRules(isFloat, m, TOTALS);
    NextNumber(isFloat, m, TOTALS, 0, "bs", "daily_battery_discharge_wh", []);
    NextNumber(isFloat, m, TOTALS, 1, "pt", "daily_load_charge_wh", []);
    NextNumber(isFloat, m, TOTALS, 2, "it", "daily_load_discharge_wh", []);
    NextNumber(isFloat, m, TOTALS, 3, "lmo", "rated_output_watts", []);
    NextNumber(isFloat, m, TOTALS, 4, "lmi", "rated_input_watts", []);
    NextRule(isFloat, m, TOTALS, 5, Inverted("tc_dis", "surplus_feed_in_enabled"));
  }

  lemma ChannelFields(isFloat: FloatSyntax, m: map<string, string>)
    ensures Samples(isFloat, m, CHANNELS) ==
            Number(isFloat, m, "w1", "solar_input_watts", ["1"]) +
            Number(isFloat, m, "w2", "solar_input_watts", ["2"]) + Number(isFloat, m, "g1", "output_watts", ["1"]) +
            Number(isFloat, m, "g2", "output_watts", ["2"]) + Number(isFloat, m, "o1", "output_enabled", ["1"]) +
            Number(isFloat, m, "o2", "output_enabled", ["2"])
  {
    hide Samples, Trim, ParseInt, Number;
    NoRules(isFloat, m, CHANNELS);
    NextNumber(isFloat, m, CHANNELS, 0, "w1", "solar_input_watts", ["1"]);
    NextNumber(isFloat, m, CHANNELS, 1, "w2", "solar_input_watts", ["2"]);
    NextNumber(isFloat, m, CHANNELS, 2, "g1", "output_watts", ["1"]);
    NextNumber(isFloat, m, CHANNELS, 3, "g2", "output_watts", ["2"]);
    NextNumber(isFloat, m, CHANNELS, 4, "o1", "output_enabled", ["1"]);
    NextNumber(isFloat, m, CHANNELS, 5, "o2", "output_enabled", ["2"]);
  }

  lemma SensorFields(isFloat: FloatSyntax, m: map<string, string>)
    ensures Samples(isFloat, m, SENSORS) ==
            Number(isFloat, m, "tl", "temperature_celsius", ["min"]) +
            Number(isFloat, m, "th", "temperature_celsius", ["max"]) +
            Number(isFloat, m, "b1", "extra_pack_connected", ["1"]) +
            Number(isFloat, m, "b2", "extra_pack_connected", ["2"])
  {
    hide Samples, Trim, ParseInt, Number;
    NoRules(isFloat, m, SENSORS);
    NextNumber(isFloat, m, SENSORS, 0, "tl", "temperature_celsius", ["min"]);
    NextNumber(isFloat, m, SENSORS, 1, "th", "temperature_celsius", ["max"]);
    NextNumber(isFloat, m, SENSORS, 2, "b1", "extra_pack_connected", ["1"]);
    NextNumber(isFloat, m, SENSORS, 3, "b2", "extra_pack_connected", ["2"]);
  }

  lemma PackFields(isFloat: FloatSyntax, m: map<string, string>)
    ensures Samples(isFloat, m, PACKS) ==
            Number(isFloat, m, "pe", "battery_pack_soc_percent", ["0"]) +
            Number(isFloat, m, "a1", "battery_pack_soc_percent", ["1"]) +
            Number(isFloat, m, "a2", "battery_pack_soc_percent", ["2"]) +
            Number(isFloat, m, "m0", "mqtt_m_channel", ["0"]) + Number(isFloat, m, "m1", "mqtt_m_channel", ["1"]) +
            Number(isFloat, m, "m2", "mqtt_m_channel", ["2"]) + Number(isFloat, m, "m3", "mqtt_m_channel", ["3"])
  {
    hide Samples, Trim, ParseInt, Number;
    NoRules(isFloat, m, PACKS);
    NextNumber(isFloat, m, PACKS, 0, "pe", "battery_pack_soc_percent", ["0"]);
    NextNumber(isFloat, m, PACKS, 1, "a1", "battery_pack_soc_percent", ["1"]);
    NextNumber(isFloat, m, PACKS, 2, "a2", "battery_pack_soc_percent", ["2"]);
    NextNumber(isFloat, m, PACKS, 3, "m0", "mqtt_m_channel", ["0"]);
    NextNumber(isFloat, m, PACKS, 4, "m1", "mqtt_m_channel", ["1"]);
    NextNumber(isFloat, m, PACKS, 5, "m2", "mqtt_m_channel", ["2"]);
    NextNumber(isFloat, m, PACKS, 6, "m3", "mqtt_m_channel", ["3"]);
  }

  lemma FieldTable(isFloat: FloatSyntax, m: map<string, string>)
    ensures Samples(isFloat, m, RULES) ==
            (Number(isFloat, m, "pe", "battery_soc_percent", []) +
             Number(isFloat, m, "kn", "battery_remaining_wh", []) +
             Number(isFloat, m, "do", "battery_dod_percent", []) +
             Number(isFloat, m, "lv", "output_threshold_watts", []) +
             Number(isFloat, m, "bc", "daily_battery_charge_wh", [])) +
            (Number(isFloat, m, "bs", "daily_battery_discharge_wh", []) +
             Number(isFloat, m, "pt", "daily_load_charge_wh", []) +
             Number(isFloat, m, "it", "daily_load_discharge_wh", []) +
             Number(isFloat, m, "lmo", "rated_output_watts", []) +
             Number(isFloat, m, "lmi", "rated_input_watts", []) + FeedIn(m)) +
            (Number(isFloat, m, "w1", "solar_input_watts", ["1"]) +
             Number(isFloat, m, "w2", "solar_input_watts", ["2"]) +
             Number(isFloat, m, "g1", "output_watts", ["1"]) + Number(isFloat, m, "g2", "output_watts", ["2"]) +
             Number(isFloat, m, "o1", "output_enabled", ["1"]) + Number(isFloat, m, "o2", "output_enabled", ["2"])) +
            (Number(isFloat, m, "tl", "temperature_celsius", ["min"]) +
             Number(isFloat, m, "th", "temperature_celsius", ["max"]) +
             Number(isFloat, m, "b1", "extra_pack_connected", ["1"]) +
             Number(isFloat, m, "b2", "extra_pack_connected", ["2"])) +
            (Number(isFloat, m, "pe", "battery_pack_soc_percent", ["0"]) +
             Number(isFloat, m, "a1", "battery_pack_soc_percent", ["1"]) +
             Number(isFloat, m, "a2", "battery_pack_soc_percent", ["2"]) +
             Number(isFloat, m, "m0", "mqtt_m_channel", ["0"]) + Number(isFloat, m, "m1", "mqtt_m_channel", ["1"]) +
             Number(isFloat, m, "m2", "mqtt_m_channel", ["2"]) + Number(isFloat, m, "m3", "mqtt_m_channel", ["3"]))
  {
    hide Samples, Number, FeedIn;
    BatteryFields(isFloat, m);
    TotalsFields(isFloat, m);
    ChannelFields(isFloat, m);
    SensorFields(isFloat, m);
    PackFields(isFloat, m);
    SamplesAppend(isFloat, m, BATTERY + TOTALS + CHANNELS + SENSORS, PACKS);
    SamplesAppend(isFloat, m, BATTERY + TOTALS + CHANNELS, SENSORS);
    SamplesAppend(isFloat, m, BATTERY + TOTALS, CHANNELS);
    SamplesAppend(isFloat, m, BATTERY, TOTALS);
  }

  /** The table of Update, written out: every field that holds a number is published under its name and
      labels, tc_dis holding 0 as surplus feed-in on and any other integer as off, in this order, and
      nothing else is. */
  lemma DeviceFields(isFloat: FloatSyntax, payload: string)
    ensures var m := Parsed(payload);
            DeviceSamples(isFloat, payload) ==
            (Number(isFloat, m, "pe", "battery_soc_percent", []) +
             Number(isFloat, m, "kn", "battery_remaining_wh", []) +
             Number(isFloat, m, "do", "battery_dod_percent", []) +
             Number(isFloat, m, "lv", "output_threshold_watts", []) +
             Number(isFloat, m, "bc", "daily_battery_charge_wh", [])) +
            (Number(isFloat, m, "bs", "daily_battery_discharge_wh", []) +
             Number(isFloat, m, "pt", "daily_load_charge_wh", []) +
             Number(isFloat, m, "it", "daily_load_discharge_wh", []) +
             Number(isFloat, m, "lmo", "rated_output_watts", []) +
             Number(isFloat, m, "lmi", "rated_input_watts", []) + FeedIn(m)) +
            (Number(isFloat, m, "w1", "solar_input_watts", ["1"]) +
             Number(isFloat, m, "w2", "solar_input_watts", ["2"]) +
             Number(isFloat, m, "g1", "output_watts", ["1"]) + Number(isFloat, m, "g2", "output_watts", ["2"]) +
             Number(isFloat, m, "o1", "output_enabled", ["1"]) + Number(isFloat, m, "o2", "output_enabled", ["2"])) +
            (Number(isFloat, m, "tl", "temperature_celsius", ["min"]) +
             Number(isFloat, m, "th", "temperature_celsius", ["max"]) +
             Number(isFloat, m, "b1", "extra_pack_connected", ["1"]) +
             Number(isFloat, m, "b2", "extra_pack_connected", ["2"])) +
            (Number(isFloat, m, "pe", "battery_pack_soc_percent", ["0"]) +
             Number(isFloat, m, "a1", "battery_pack_soc_percent", ["1"]) +
             Number(isFloat, m, "a2", "battery_pack_soc_percent", ["2"]) +
             Number(isFloat, m, "m0", "mqtt_m_channel", ["0"]) + Number(isFloat, m, "m1", "mqtt_m_channel", ["1"]) +
             Number(isFloat, m, "m2", "mqtt_m_channel", ["2"]) + Number(isFloat, m, "m3", "mqtt_m_channel", ["3"]))
    ensures forall m, key, name, labels :: Number(isFloat, m, key, name, labels) ==
              if key in m && isFloat(Trim(m[key])) then [Sample(name, FromText(Trim(m[key])), labels)] else []
    ensures forall m :: FeedIn(m) ==
              if "tc_dis" !in m || ParseInt(Trim(m["tc_dis"])).None? then []
              else [Sample("surplus_feed_in_enabled", Flag(ParseInt(Trim(m["tc_dis"])) == Some(0)), [])]
  {
    hide Trim, ParseInt, Parsed;
    FieldTable(isFloat, Parsed(payload));
  }

  predicate Accepts(isFloat: FloatSyntax, payload: string) { DeviceSamples(isFloat, payload) != [] }

  /** A payload is accepted exactly when one of the recognised fields carries a usable number. */
  lemma AcceptsIff(isFloat: FloatSyntax, payload: string)
    ensures Accepts(isFloat, payload) <==> exists i :: 0 <= i < |RULES| && Usable(isFloat, Parsed(payload), RULES[i])
  {
    var m := Parsed(payload);
    if i :| 0 <= i < |RULES| && Usable(isFloat, m, RULES[i]) {
      SomethingUsable(isFloat, m, RULES, i);
    } else {
      NothingUsable(isFloat, m, RULES);
    }
  }

  // ---------------------------------------------------------------------------------------------
  // Whole runs

  /** One call of UpdateMetrics: Update offers the samples of its payload, the ESP32 fallback its own. */
  datatype Offer = Offer(values: seq<Sample>, at: int)

  function AfterOffers(offers: seq<Offer>): Cache {
    if offers == [] then EMPTY
    else Commit(AfterOffers(offers[..|offers| - 1]), offers[|offers| - 1].values, offers[|offers| - 1].at)
  }

  /** The position after the last accepted offer, 0 if none was accepted. */
  function LastAccepted(offers: seq<Offer>): (n: nat)
    ensures n <= |offers|
    ensures n > 0 ==> Known(offers[n - 1].values) != []
    ensures forall i :: n <= i < |offers| ==> Known(offers[i].values) == []
  {
    if offers == [] then 0
    else if Known(offers[|offers| - 1].values) != [] then |offers|
    else LastAccepted(offers[..|offers| - 1])
  }

  /** Cache contents, update time and payload time all come from the last accepted update. */
  lemma {:induction false} CacheIsLastAccepted(offers: seq<Offer>)
    ensures var n := LastAccepted(offers);
            AfterOffers(offers) ==
            if n == 0 then EMPTY
            else Cache(Known(offers[n - 1].values), Some(offers[n - 1].at), offers[n - 1].at / 1_000_000_000)
    decreases |offers|
  {
    if LastAccepted(offers) < |offers| {
      var last := offers[|offers| - 1];
      CacheIsLastAccepted(offers[..|offers| - 1]);
      assert Commit(AfterOffers(offers[..|offers| - 1]), last.values, last.at) == AfterOffers(offers[..|offers| - 1]);
    }
  }

  /** What a scrape at `now` emits after any updates and rejections: the meta metrics carry the time of
      the last accepted update, and its known samples follow, in order, while its age is within the TTL. */
  lemma ScrapeShowsLastAccepted(offers: seq<Offer>, up: bool, ttl: int, now: int)
    ensures var n := LastAccepted(offers);
            var inTime := n > 0 && now - offers[n - 1].at <= ttl;
            var at := if n > 0 then offers[n - 1].at / 1_000_000_000 else 0;
            Emitted(AfterOffers(offers), up, ttl, now) ==
            [Up(up), LastUpdate(at), LastPayload(at), PayloadFresh(inTime)] +
            if inTime then Gauges(Known(offers[n - 1].values)) else []
  {
    CacheIsLastAccepted(offers);
  }

  /** payload_fresh and HasFreshPayload(ttl) agree at one clock reading, unless the TTL is negative
      and the clock has gone back far enough to make the payload younger than that. */
  lemma FreshnessAgrees(offers: seq<Offer>, ttl: int, now: int)
    ensures var c, n := AfterOffers(offers), LastAccepted(offers);
            Fresh(c, ttl, now) == HasFresh(c, ttl, now) <==> (ttl >= 0 || n == 0 || now - offers[n - 1].at > ttl)
  {
    CacheIsLastAccepted(offers);
  }

  /** So for every TTL the configuration admits, a scrape calls the payload fresh exactly when
      HasFreshPayload does. */
  lemma ConfiguredFreshnessAgrees(offers: seq<Offer>, up: bool, ttl: int, now: int)
    requires ttl > 0
    ensures Emitted(AfterOffers(offers), up, ttl, now)[3] == PayloadFresh(HasFresh(AfterOffers(offers), ttl, now))
  {
    FreshnessAgrees(offers, ttl, now);
  }

  /** A collector built with a negative TTL can disagree: a payload of time 10, read at time 0. */
  lemma NegativeTTLDisagrees()
    ensures var offers := [Offer([Sample("output_watts", Flag(true), ["1"])], 10)];
            Fresh(AfterOffers(offers), -5, 0) && !HasFresh(AfterOffers(offers), -5, 0)
  {
    var values := [Sample("output_watts", Flag(true), ["1"])];
    var offers := [Offer(values, 10)];
    assert values[1..] == [] && Known(values) == values;
    assert offers[..0] == [] && AfterOffers(offers) == Commit(EMPTY, values, 10);
  }
}
