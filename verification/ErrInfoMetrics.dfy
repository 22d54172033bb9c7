/** The metric series the emulator keeps for puterrinfo uploads, and what they say after any number
of uploads handled one at a time.  Gauge values are integers here. */
module ErrInfoMetrics {
  import opened Options
  import opened Text
  import opened ErrInfoCodes
  import opened ErrInfo
  import ErrInfoLaws

  /** The labels every named series carries: the device and the battery slot, printed. */
  datatype Slot = Slot(uid: string, battery: string)

  datatype EventLabel = EventLabel(slot: Slot, code: string, name: string)

  datatype ReasonLabel = ReasonLabel(slot: Slot, reason: string)

  datatype Gauges = Gauges(
    reportType: map<Slot, int>, swVersion: map<Slot, int>,
    field2: map<Slot, int>, field3: map<Slot, int>, field4: map<Slot, int>, field5: map<Slot, int>)

  datatype Counters = Counters(
    events: multiset<EventLabel>, lastTS: map<EventLabel, int>,
    timeouts: nat, reasons: multiset<ReasonLabel>, rssi: map<ReasonLabel, int>)

  const NO_GAUGES := Gauges(map[], map[], map[], map[], map[], map[])
  const NO_COUNTS := Counters(multiset{}, map[], 0, multiset{}, map[])

  /** One thing counted: an event, or a quintuple by its code and name. */
  datatype Item = Seen(slot: Slot, event: Event) | SeenQuintuple(slot: Slot, code: int, name: string) {
    function Label(): EventLabel {
      match this
      case Seen(slot, event) => EventLabel(slot, FormatInt(event.code), event.name)
      case SeenQuintuple(slot, code, name) => EventLabel(slot, FormatInt(code), name)
    }

    predicate WiFi() { Seen? && event.code == 75 }

    function Reading(): Code75
      requires WiFi()
    {
      DecodeCode75(event.value)
    }

    function Reason(): ReasonLabel
      requires WiFi()
    {
      ReasonLabel(slot, FormatInt(Reading().reason))
    }
  }

  function SlotOf(p: Parsed): Slot { Slot(p.uid, FormatInt(p.reportType)) }

  function Items(p: Parsed): (items: seq<Item>)
    ensures |items| == |p.events| + |p.quintuples|
  {
    seq(|p.events|, i requires 0 <= i < |p.events| => Seen(SlotOf(p), p.events[i])) +
    seq(|p.quintuples|, i requires 0 <= i < |p.quintuples| =>
          SeenQuintuple(SlotOf(p), p.quintuples[i].code, p.quintuples[i].name))
  }

  lemma ItemAt(p: Parsed, i: nat)
    requires i < |Items(p)|
    ensures i < |p.events| ==> Items(p)[i] == Seen(SlotOf(p), p.events[i])
    ensures i >= |p.events| ==>
              var q := p.quintuples[i - |p.events|];
              Items(p)[i] == SeenQuintuple(SlotOf(p), q.code, q.name)
  {}

  function CountItem(c: Counters, item: Item): Counters {
    var counted := c.(events := c.events + multiset{item.Label()});
    if item.SeenQuintuple? then counted
    else
      var stamped := counted.(lastTS := c.lastTS[item.Label() := item.event.ts]);
      if !item.WiFi() then stamped
      else if item.Reading().scanTimeout then stamped.(timeouts := c.timeouts + 1)
      else if item.Reading().reasonPresent then
        stamped.(reasons := c.reasons + multiset{item.Reason()}, rssi := c.rssi[item.Reason() := item.Reading().rssi])
      else stamped
  }

  function CountItems(c: Counters, items: seq<Item>): Counters {
    if items == [] then c else CountItem(CountItems(c, items[..|items| - 1]), items[|items| - 1])
  }

  function SetGauges(g: Gauges, p: Parsed): Gauges {
    var slot := SlotOf(p);
    var g1 := if |p.header| >= 1 then g.(reportType := g.reportType[slot := p.reportType]) else g;
    var g2 := if |p.header| >= 2 then g1.(swVersion := g.swVersion[slot := p.named.softwareVersion]) else g1;
    if |p.header| >= 6 then
      g2.(field2 := g.field2[slot := p.named.field2], field3 := g.field3[slot := p.named.field3],
          field4 := g.field4[slot := p.named.field4], field5 := g.field5[slot := p.named.field5])
    else g2
  }

  // ---------------------------------------------------------------------------------------------
  // The positional header series

  /** One series per header position, labelled by the printed position. */
  function HeaderSeries(header: seq<int>): map<string, int> {
    if header == [] then map[]
    else HeaderSeries(header[..|header| - 1])[FormatInt(|header| - 1) := header[|header| - 1]]
  }

  function IndexNames(lo: nat, hi: nat): set<string> { set i | lo <= i < hi :: FormatInt(i) }

  lemma {:induction false} HeaderSeriesFacts(header: seq<int>)
    ensures HeaderSeries(header).Keys == IndexNames(0, |header|)
    ensures forall i :: 0 <= i < |header| ==>
              FormatInt(i) in HeaderSeries(header) && HeaderSeries(header)[FormatInt(i)] == header[i]
  {
    hide FormatInt;
    if header != [] {
      var n := |header| - 1;
      HeaderSeriesFacts(header[..n]);
      assert IndexNames(0, |header|) == IndexNames(0, n) + {FormatInt(n)};
      forall i | 0 <= i < |header|
        ensures FormatInt(i) in HeaderSeries(header) && HeaderSeries(header)[FormatInt(i)] == header[i]
      {
        if FormatInt(i) == FormatInt(n) {
          FormatIntInjective(i, n);
        } else {
          assert header[..n][i] == header[i];
        }
      }
    }
  }

  lemma HeaderSeriesUnique(header: seq<int>, series: map<string, int>)
    requires series.Keys <= IndexNames(0, |header|)
    requires forall i :: 0 <= i < |header| ==> FormatInt(i) in series && series[FormatInt(i)] == header[i]
    ensures series == HeaderSeries(header)
  {
    hide FormatInt, HeaderSeries;
    HeaderSeriesFacts(header);
    forall k | k in series ensures k in HeaderSeries(header) && series[k] == HeaderSeries(header)[k] {
      var i :| 0 <= i < |header| && k == FormatInt(i);
    }
    assert HeaderSeries(header).Keys <= series.Keys;
  }

  // ---------------------------------------------------------------------------------------------
  // The emulator

  class Emulator {
    const names: map<int, string>
    var lastErrInfoHeaderLen: nat
    var headerValue: map<string, int>
    var gauges: Gauges
    var counters: Counters

    /** The positional series are those of the last header's length. */
    ghost predicate Valid()
      reads this
    {
      headerValue.Keys == IndexNames(0, lastErrInfoHeaderLen)
    }

    constructor (names: map<int, string>)
      ensures this.names == names && Valid() && headerValue == map[] && gauges == NO_GAUGES && counters == NO_COUNTS
    {
      this.names, lastErrInfoHeaderLen, headerValue, gauges, counters := names, 0, map[], NO_GAUGES, NO_COUNTS;
    }

    /** updateSolarErrInfoHeader: drop the positions the new header lacks, write the others. */
    method UpdateHeader(header: seq<int>)
      requires Valid()
      modifies `lastErrInfoHeaderLen, `headerValue
      ensures Valid() && lastErrInfoHeaderLen == |header| && headerValue == HeaderSeries(header)
    {
      hide FormatInt, HeaderSeries;
      var prevLen := lastErrInfoHeaderLen;
      lastErrInfoHeaderLen := |header|;
      var i := |header|;
      while i < prevLen
        invariant lastErrInfoHeaderLen == |header| <= i && (i <= prevLen || i == |header|)
        invariant headerValue.Keys == IndexNames(0, prevLen) - IndexNames(|header|, i)
      {
        headerValue := headerValue - {FormatInt(i)};
        assert IndexNames(|header|, i + 1) == IndexNames(|header|, i) + {FormatInt(i)};
        i := i + 1;
      }
      KeysLeft(|header|, i, prevLen);
      i := 0;
      while i < |header|
        invariant lastErrInfoHeaderLen == |header| && 0 <= i <= |header| && headerValue.Keys <= IndexNames(0, |header|)
        invariant forall j :: 0 <= j < i ==> FormatInt(j) in headerValue && headerValue[FormatInt(j)] == header[j]
      {
        assert FormatInt(i) in IndexNames(0, |header|);
        forall j | 0 <= j < i ensures FormatInt(j) != FormatInt(i) {
          if FormatInt(j) == FormatInt(i) { FormatIntInjective(j, i); }
        }
        headerValue := headerValue[FormatInt(i) := header[i]];
        i := i + 1;
      }
      HeaderSeriesUnique(header, headerValue);
      HeaderSeriesFacts(header);
    }

    /** updateErrInfoNamedMetrics. */
    method UpdateNamed(p: Parsed)
      modifies `gauges, `counters
      ensures gauges == SetGauges(old(gauges), p)
      ensures counters == CountItems(old(counters), Items(p))
    {
      hide CountItem, SetGauges, FormatInt, Items;
      UpdateGauges(p);
      var slot := Slot(p.uid, FormatInt(p.reportType));
      ghost var items := Items(p);
      var i := 0;
      while i < |p.events|
        invariant 0 <= i <= |p.events| && gauges == SetGauges(old(gauges), p)
        invariant counters == CountItems(old(counters), items[..i])
      {
        ItemAt(p, i);
        assert items[..i + 1][..i] == items[..i];
        CountEvent(slot, p.events[i]);
        i := i + 1;
      }
      i := 0;
      while i < |p.quintuples|
        invariant 0 <= i <= |p.quintuples| && gauges == SetGauges(old(gauges), p)
        invariant counters == CountItems(old(counters), items[..|p.events| + i])
      {
        var q := p.quintuples[i];
        assert items[..|p.events| + i + 1][..|p.events| + i] == items[..|p.events| + i];
        ItemAt(p, |p.events| + i);
        CountQuintuple(slot, q);
        i := i + 1;
      }
      assert items[..|p.events| + i] == items;
    }

    /** The named header gauges, as far as the header reaches. */
    method UpdateGauges(p: Parsed)
      modifies `gauges
      ensures gauges == SetGauges(old(gauges), p)
    {
      hide FormatInt;
      var slot := Slot(p.uid, FormatInt(p.reportType));
      if |p.header| >= 1 {
        gauges := gauges.(reportType := gauges.reportType[slot := p.reportType]);
      }
      if |p.header| >= 2 {
        gauges := gauges.(swVersion := gauges.swVersion[slot := p.named.softwareVersion]);
      }
      if |p.header| >= 6 {
        gauges := gauges.(field2 := gauges.field2[slot := p.named.field2]);
        gauges := gauges.(field3 := gauges.field3[slot := p.named.field3]);
        gauges := gauges.(field4 := gauges.field4[slot := p.named.field4]);
        gauges := gauges.(field5 := gauges.field5[slot := p.named.field5]);
      }
    }

    /** One round of the loop over quintuples. */
    method CountQuintuple(slot: Slot, q: Quintuple)
      modifies `counters
      ensures counters == CountItem(old(counters), SeenQuintuple(slot, q.code, q.name))
    {
      hide FormatInt;
      counters := counters.(events := counters.events + multiset{EventLabel(slot, FormatInt(q.code), q.name)});
    }

    /** One round of the loop over events. */
    method CountEvent(slot: Slot, ev: Event)
      modifies `counters
      ensures counters == CountItem(old(counters), Seen(slot, ev))
    {
      hide FormatInt, DecodeCode75;
      var series := EventLabel(slot, FormatInt(ev.code), ev.name);
      counters := counters.(events := counters.events + multiset{series});
      counters := counters.(lastTS := counters.lastTS[series := ev.ts]);
      if ev.code == 75 {
        var decoded := DecodeCode75(ev.value);
        if decoded.scanTimeout {
          counters := counters.(timeouts := counters.timeouts + 1);
          return;
        }
        if decoded.reasonPresent {
          var reason := ReasonLabel(slot, FormatInt(decoded.reason));
          counters := counters.(reasons := counters.reasons + multiset{reason});
          counters := counters.(rssi := counters.rssi[reason := decoded.rssi]);
        }
      }
    }

    /** The part of handleSolarErrInfo that reads the body and keeps the metrics. */
    method HandleUpload(raw: string) returns (p: Parsed)
      requires Valid()
      modifies this
      ensures Valid() && p == Meaning(names, raw)
      ensures headerValue == HeaderSeries(p.header) && lastErrInfoHeaderLen == |p.header|
      ensures gauges == SetGauges(old(gauges), p) && counters == CountItems(old(counters), Items(p))
    {
      hide Meaning, HeaderSeries, SetGauges, CountItems;
      p := ParseBody(names, raw);
      UpdateHeader(p.header);
      UpdateNamed(p);
    }
  }

  lemma KeysLeft(n: nat, i: nat, prevLen: nat)
    requires n <= i && i >= prevLen
    ensures IndexNames(0, prevLen) - IndexNames(n, i) <= IndexNames(0, n)
  {
    hide FormatInt;
    forall k | k in IndexNames(0, prevLen) && k !in IndexNames(n, i) ensures k in IndexNames(0, n) {
      var j :| 0 <= j < prevLen && k == FormatInt(j);
      assert j >= n ==> FormatInt(j) in IndexNames(n, i);
    }
  }

  // ---------------------------------------------------------------------------------------------
  // Any number of uploads

  function AllItems(uploads: seq<Parsed>): seq<Item> {
    if uploads == [] then [] else AllItems(uploads[..|uploads| - 1]) + Items(uploads[|uploads| - 1])
  }

  function AfterUploads(uploads: seq<Parsed>): Counters {
    if uploads == [] then NO_COUNTS
    else CountItems(AfterUploads(uploads[..|uploads| - 1]), Items(uploads[|uploads| - 1]))
  }

  function Published(uploads: seq<Parsed>): nat {
    if uploads == [] then 0
    else Published(uploads[..|uploads| - 1]) + |uploads[|uploads| - 1].events| + |uploads[|uploads| - 1].quintuples|
  }

  function Labels(items: seq<Item>): seq<EventLabel> {
    seq(|items|, i requires 0 <= i < |items| => items[i].Label())
  }

  function Times(items: seq<Item>, reading: Item -> bool): nat {
    if items == [] then 0
    else Times(items[..|items| - 1], reading) + if reading(items[|items| - 1]) then 1 else 0
  }

  function Reasons(items: seq<Item>): seq<ReasonLabel> {
    if items == [] then []
    else
      var last := items[|items| - 1];
      Reasons(items[..|items| - 1]) + if last.WiFi() && !last.Reading().scanTimeout then [last.Reason()] else []
  }

  predicate IsWiFi(item: Item) { item.WiFi() }

  predicate IsTimeout(item: Item) { item.WiFi() && item.event.value % TWO_TO_THE_32 == 0 }

  lemma {:induction false} CountItemsAppend(c: Counters, a: seq<Item>, b: seq<Item>)
    ensures CountItems(c, a + b) == CountItems(CountItems(c, a), b)
    decreases |b|
  {
    hide CountItem;
    if b == [] {
      assert a + b == a;
    } else {
      assert (a + b)[..|a + b| - 1] == a + b[..|b| - 1];
      CountItemsAppend(c, a, b[..|b| - 1]);
    }
  }

  lemma {:induction false} UploadsAreItems(uploads: seq<Parsed>)
    ensures AfterUploads(uploads) == CountItems(NO_COUNTS, AllItems(uploads))
    ensures |AllItems(uploads)| == Published(uploads)
  {
    hide CountItem;
    if uploads != [] {
      var front := uploads[..|uploads| - 1];
      UploadsAreItems(front);
      CountItemsAppend(NO_COUNTS, AllItems(front), Items(uploads[|uploads| - 1]));
    }
  }

  lemma CountItemFacts(c: Counters, item: Item)
    ensures var d := CountItem(c, item);
            && d.events == c.events + multiset{item.Label()}
            && d.timeouts == c.timeouts + (if IsTimeout(item) then 1 else 0)
            && d.reasons == c.reasons +
               (if item.WiFi() && !item.Reading().scanTimeout then multiset{item.Reason()} else multiset{})
            && (d.timeouts + |d.reasons|) == (c.timeouts + |c.reasons|) + if item.WiFi() then 1 else 0
  {
    hide FormatInt;
  }

  lemma {:induction false} ItemEvents(items: seq<Item>)
    ensures CountItems(NO_COUNTS, items).events == multiset(Labels(items))
  {
    hide CountItem, IsTimeout, FormatInt;
    if items != [] {
      var front, last := items[..|items| - 1], items[|items| - 1];
      ItemEvents(front);
      CountItemFacts(CountItems(NO_COUNTS, front), last);
      assert Labels(items) == Labels(front) + [last.Label()];
    }
  }

  lemma {:induction false} ItemReasons(items: seq<Item>)
    ensures CountItems(NO_COUNTS, items).reasons == multiset(Reasons(items))
  {
    hide CountItem, IsTimeout, FormatInt, DecodeCode75;
    if items != [] {
      ItemReasons(items[..|items| - 1]);
      CountItemFacts(CountItems(NO_COUNTS, items[..|items| - 1]), items[|items| - 1]);
    }
  }

  lemma {:induction false} ItemTimes(items: seq<Item>)
    ensures var c := CountItems(NO_COUNTS, items);
            c.timeouts == Times(items, IsTimeout) && c.timeouts + |c.reasons| == Times(items, IsWiFi)
  {
    hide CountItem, IsTimeout, FormatInt, DecodeCode75;
    if items != [] {
      ItemTimes(items[..|items| - 1]);
      CountItemFacts(CountItems(NO_COUNTS, items[..|items| - 1]), items[|items| - 1]);
    }
  }

  /** After any uploads the event counters add up, label by label, to everything parsed; every code-75
      event went to exactly one of the scan-timeout counter and the reason counters. */
  lemma CountersExact(uploads: seq<Parsed>)
    ensures var c, items := AfterUploads(uploads), AllItems(uploads);
            && c.events == multiset(Labels(items)) && |c.events| == Published(uploads)
            && c.timeouts == Times(items, IsTimeout) && c.reasons == multiset(Reasons(items))
            && c.timeouts + |c.reasons| == Times(items, IsWiFi)
  {
    UploadsAreItems(uploads);
    ItemEvents(AllItems(uploads));
    ItemReasons(AllItems(uploads));
    ItemTimes(AllItems(uploads));
    assert |Labels(AllItems(uploads))| == |AllItems(uploads)|;
  }

  /** Index of the last event among `items` with this label, or -1. */
  function LastSeen(items: seq<Item>, series: EventLabel): (i: int)
    ensures -1 <= i < |items|
    ensures i >= 0 ==> items[i].Seen?
  {
    if items == [] then -1
    else
      var last := items[|items| - 1];
      if last.Seen? && last.Label() == series then |items| - 1 else LastSeen(items[..|items| - 1], series)
  }

  lemma {:induction false} LastSeenFacts(items: seq<Item>, series: EventLabel)
    ensures var i := LastSeen(items, series);
            && (i >= 0 ==> items[i].Label() == series)
            && forall j :: i < j < |items| && items[j].Seen? ==> items[j].Label() != series
  {
    hide FormatInt;
    if items != [] { LastSeenFacts(items[..|items| - 1], series); }
  }

  lemma {:induction false} ItemStamps(items: seq<Item>, series: EventLabel)
    ensures var c, i := CountItems(NO_COUNTS, items), LastSeen(items, series);
            (series in c.lastTS <==> i >= 0) && (i >= 0 ==> c.lastTS[series] == items[i].event.ts)
  {
    hide FormatInt, DecodeCode75;
    if items != [] {
      ItemStamps(items[..|items| - 1], series);
    }
  }

  /** The last-event gauge of a series is the time stamp of the last event uploaded with it. */
  lemma LastStampExact(uploads: seq<Parsed>, series: EventLabel)
    ensures var c, items := AfterUploads(uploads), AllItems(uploads);
            var i := LastSeen(items, series);
            && (series in c.lastTS <==> i >= 0) && (i >= 0 ==> c.lastTS[series] == items[i].event.ts)
            && (i >= 0 ==> items[i].Label() == series)
            && forall j :: i < j < |items| && items[j].Seen? ==> items[j].Label() != series
  {
    hide CountItems, LastSeen;
    LastSeenFacts(AllItems(uploads), series);
    UploadsAreItems(uploads);
    ItemStamps(AllItems(uploads), series);
  }

  /** Index of the last code-75 event with a reason under this label, or -1. */
  function LastReason(items: seq<Item>, reason: ReasonLabel): (i: int)
    ensures -1 <= i < |items|
    ensures i >= 0 ==> items[i].WiFi()
  {
    if items == [] then -1
    else
      var last := items[|items| - 1];
      if Carries(last, reason) then |items| - 1
      else LastReason(items[..|items| - 1], reason)
  }

  predicate Carries(item: Item, reason: ReasonLabel) {
    item.WiFi() && item.Reading().reasonPresent && item.Reason() == reason
  }

  lemma {:induction false} LastReasonFacts(items: seq<Item>, reason: ReasonLabel)
    ensures var i := LastReason(items, reason);
            && (i >= 0 ==> Carries(items[i], reason))
            && forall j :: i < j < |items| ==> !Carries(items[j], reason)
  {
    hide FormatInt, DecodeCode75;
    if items != [] { LastReasonFacts(items[..|items| - 1], reason); }
  }

  lemma {:induction false} ItemSignals(items: seq<Item>, reason: ReasonLabel)
    ensures var c, i := CountItems(NO_COUNTS, items), LastReason(items, reason);
            (reason in c.rssi <==> i >= 0) && (i >= 0 ==> c.rssi[reason] == items[i].Reading().rssi)
  {
    hide FormatInt;
    if items != [] {
      ItemSignals(items[..|items| - 1], reason);
    }
  }

  /** The RSSI gauge of a reason is the RSSI of the last event uploaded with that reason. */
  lemma SignalExact(uploads: seq<Parsed>, reason: ReasonLabel)
    ensures var c, items := AfterUploads(uploads), AllItems(uploads);
            var i := LastReason(items, reason);
            && (reason in c.rssi <==> i >= 0) && (i >= 0 ==> c.rssi[reason] == items[i].Reading().rssi)
            && (i >= 0 ==> Carries(items[i], reason))
            && forall j :: i < j < |items| ==> !Carries(items[j], reason)
  {
    hide CountItems, LastReason, DecodeCode75, Carries;
    UploadsAreItems(uploads);
    LastReasonFacts(AllItems(uploads), reason);
    ItemSignals(AllItems(uploads), reason);
  }

  // ---------------------------------------------------------------------------------------------
  // The named header gauges after any number of uploads

  function GaugesAfter(uploads: seq<Parsed>): Gauges {
    if uploads == [] then NO_GAUGES else SetGauges(GaugesAfter(uploads[..|uploads| - 1]), uploads[|uploads| - 1])
  }

  /** Index of the last upload for this slot whose header has at least `n` numbers, or -1. */
  function LastUpload(uploads: seq<Parsed>, slot: Slot, n: nat): (i: int)
    ensures -1 <= i < |uploads|
    ensures i >= 0 ==> |uploads[i].header| >= n
  {
    if uploads == [] then -1
    else
      var last := uploads[|uploads| - 1];
      if SlotOf(last) == slot && |last.header| >= n then |uploads| - 1
      else LastUpload(uploads[..|uploads| - 1], slot, n)
  }

  /** What the parser makes of the header. */
  predicate HeaderRead(p: Parsed) { p.reportType == ReportType(p.header) && p.named == Name(p.header) }

  ghost predicate Shows(series: map<Slot, int>, uploads: seq<Parsed>, slot: Slot, n: nat, k: nat)
    requires k < n
  {
    var i := LastUpload(uploads, slot, n);
    (slot in series <==> i >= 0) && (i >= 0 ==> series[slot] == uploads[i].header[k])
  }

  lemma ShowsNext(before: map<Slot, int>, after: map<Slot, int>, uploads: seq<Parsed>, p: Parsed, slot: Slot,
                  n: nat, k: nat)
    requires k < n && Shows(before, uploads, slot, n, k)
    requires after == if |p.header| >= n then before[SlotOf(p) := p.header[k]] else before
    ensures Shows(after, uploads + [p], slot, n, k)
  {
    hide SlotOf;
    assert (uploads + [p])[..|uploads|] == uploads;
  }

  lemma GaugesRead(g: Gauges, p: Parsed)
    requires HeaderRead(p)
    ensures var g', slot, h := SetGauges(g, p), SlotOf(p), p.header;
            && g'.reportType == (if |h| >= 1 then g.reportType[slot := h[0]] else g.reportType)
            && g'.swVersion == (if |h| >= 2 then g.swVersion[slot := h[1]] else g.swVersion)
            && g'.field2 == (if |h| >= 6 then g.field2[slot := h[2]] else g.field2)
            && g'.field3 == (if |h| >= 6 then g.field3[slot := h[3]] else g.field3)
            && g'.field4 == (if |h| >= 6 then g.field4[slot := h[4]] else g.field4)
            && g'.field5 == (if |h| >= 6 then g.field5[slot := h[5]] else g.field5)
  {
    hide SlotOf, HeaderRead;
    NumbersRead(p);
  }

  lemma NumbersRead(p: Parsed)
    requires HeaderRead(p)
    ensures |p.header| >= 1 ==> p.reportType == p.header[0]
    ensures |p.header| >= 2 ==> p.named.softwareVersion == p.header[1]
    ensures |p.header| >= 6 ==>
              p.named == NamedHeader(p.header[1], p.header[2], p.header[3], p.header[4], p.header[5])
  {}

  lemma NothingShown(slot: Slot, n: nat, k: nat)
    requires k < n
    ensures Shows(map[], [], slot, n, k)
  {}

  /** Each named gauge shows, per slot, its position of the last header long enough to have it. */
  lemma {:induction false} GaugesExact(uploads: seq<Parsed>, slot: Slot)
    requires forall i :: 0 <= i < |uploads| ==> HeaderRead(uploads[i])
    ensures var g := GaugesAfter(uploads);
            && Shows(g.reportType, uploads, slot, 1, 0) && Shows(g.swVersion, uploads, slot, 2, 1)
            && Shows(g.field2, uploads, slot, 6, 2) && Shows(g.field3, uploads, slot, 6, 3)
            && Shows(g.field4, uploads, slot, 6, 4) && Shows(g.field5, uploads, slot, 6, 5)
  {
    hide Shows, SetGauges, SlotOf, HeaderRead;
    if uploads == [] {
      NothingShown(slot, 1, 0);
      NothingShown(slot, 2, 1);
      forall k | 2 <= k <= 5 ensures Shows(map[], uploads, slot, 6, k) { NothingShown(slot, 6, k); }
    } else {
      var front, p := uploads[..|uploads| - 1], uploads[|uploads| - 1];
      GaugesExact(front, slot);
      assert uploads == front + [p];
      var g, g' := GaugesAfter(front), GaugesAfter(uploads);
      GaugesRead(g, p);
      ShowsNext(g.reportType, g'.reportType, front, p, slot, 1, 0);
      ShowsNext(g.swVersion, g'.swVersion, front, p, slot, 2, 1);
      ShowsNext(g.field2, g'.field2, front, p, slot, 6, 2);
      ShowsNext(g.field3, g'.field3, front, p, slot, 6, 3);
      ShowsNext(g.field4, g'.field4, front, p, slot, 6, 4);
      ShowsNext(g.field5, g'.field5, front, p, slot, 6, 5);
    }
  }

  // ---------------------------------------------------------------------------------------------
  // From raw bodies

  function Parses(names: map<int, string>, raws: seq<string>): (uploads: seq<Parsed>)
    ensures |uploads| == |raws| && forall i :: 0 <= i < |raws| ==> uploads[i] == Meaning(names, raws[i])
  {
    seq(|raws|, i requires 0 <= i < |raws| => Meaning(names, raws[i]))
  }

  lemma ParsesSnoc(names: map<int, string>, raws: seq<string>, i: nat)
    requires i < |raws|
    ensures var before, uploads := Parses(names, raws[..i]), Parses(names, raws[..i + 1]);
            && uploads[..i] == before && uploads[i] == Meaning(names, raws[i])
            && AfterUploads(uploads) == CountItems(AfterUploads(before), Items(Meaning(names, raws[i])))
            && GaugesAfter(uploads) == SetGauges(GaugesAfter(before), Meaning(names, raws[i]))
  {
    hide Meaning, CountItems, SetGauges, Items;
    assert Parses(names, raws[..i + 1])[..i] == Parses(names, raws[..i]);
  }

  /** The series an emulator ends up with after the bodies it was sent, whatever they hold: the header
      series of the last, and gauges and counters to which the whole-run lemmas apply. */
  method HandleUploads(names: map<int, string>, raws: seq<string>) returns (e: Emulator)
    ensures fresh(e) && e.Valid()
    ensures var uploads := Parses(names, raws);
            && e.counters == AfterUploads(uploads) && e.gauges == GaugesAfter(uploads)
            && e.headerValue == HeaderSeries(if uploads == [] then [] else uploads[|uploads| - 1].header)
            && forall i :: 0 <= i < |uploads| ==> HeaderRead(uploads[i])
  {
    hide Meaning, HeaderSeries, SetGauges, CountItems, HeaderRead;
    e := new Emulator(names);
    NoUploads(names);
    var i := 0;
    while i < |raws|
      invariant 0 <= i <= |raws| && fresh(e) && e.Valid() && e.names == names
      invariant e.counters == AfterUploads(Parses(names, raws[..i]))
      invariant e.gauges == GaugesAfter(Parses(names, raws[..i]))
      invariant e.headerValue == HeaderSeries(if i == 0 then [] else Meaning(names, raws[i - 1]).header)
    {
      var p := e.HandleUpload(raws[i]);
      ParsesSnoc(names, raws, i);
      i := i + 1;
    }
    assert raws[..i] == raws;
    forall k | 0 <= k < |raws| ensures HeaderRead(Meaning(names, raws[k])) { MeaningReads(names, raws[k]); }
  }

  lemma NoUploads(names: map<int, string>)
    ensures AfterUploads(Parses(names, [])) == NO_COUNTS && GaugesAfter(Parses(names, [])) == NO_GAUGES
    ensures HeaderSeries([]) == map[]
  {}

  lemma MeaningReads(names: map<int, string>, raw: string)
    ensures HeaderRead(Meaning(names, raw))
  {
    hide Meaning, ReportType, Name;
    ErrInfoLaws.NamedOf(names, raw);
  }

  /** After any bodies at all, each named gauge shows, per slot, its position of the last header long
      enough to have it, and the counters add up to everything parsed. */
  lemma SeriesExact(names: map<int, string>, raws: seq<string>, slot: Slot)
    ensures var uploads := Parses(names, raws);
            var g, c, items := GaugesAfter(uploads), AfterUploads(uploads), AllItems(uploads);
            && Shows(g.reportType, uploads, slot, 1, 0) && Shows(g.swVersion, uploads, slot, 2, 1)
            && Shows(g.field2, uploads, slot, 6, 2) && Shows(g.field3, uploads, slot, 6, 3)
            && Shows(g.field4, uploads, slot, 6, 4) && Shows(g.field5, uploads, slot, 6, 5)
            && c.events == multiset(Labels(items)) && |c.events| == Published(uploads)
            && c.timeouts == Times(items, IsTimeout) && c.timeouts + |c.reasons| == Times(items, IsWiFi)
  {
    hide Meaning, Shows, GaugesAfter, AfterUploads, AllItems, Published, Labels, Times, HeaderRead;
    var uploads := Parses(names, raws);
    forall i | 0 <= i < |uploads| ensures HeaderRead(uploads[i]) { MeaningReads(names, raws[i]); }
    GaugesExact(uploads, slot);
    CountersExact(uploads);
  }
}
