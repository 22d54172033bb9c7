/** What the puterrinfo counters say in terms of the uploads themselves: how often which device reported
which event from which battery slot. */
module ErrInfoSeries {
  import opened Options
  import opened Text
  import opened ErrInfoCodes
  import opened ErrInfo
  import opened ErrInfoMetrics

  function EventsOf(events: seq<Event>, code: int, name: string): nat {
    if events == [] then 0
    else
      var last := events[|events| - 1];
      EventsOf(events[..|events| - 1], code, name) + if last.code == code && last.name == name then 1 else 0
  }

  function QuintuplesOf(qs: seq<Quintuple>, code: int, name: string): nat {
    if qs == [] then 0
    else
      var last := qs[|qs| - 1];
      QuintuplesOf(qs[..|qs| - 1], code, name) + if last.code == code && last.name == name then 1 else 0
  }

  /** Events and quintuples with this code and name in the uploads of device `uid` for slot `kind`. */
  function Reported(uploads: seq<Parsed>, uid: string, kind: int, code: int, name: string): nat {
    if uploads == [] then 0
    else
      var p := uploads[|uploads| - 1];
      Reported(uploads[..|uploads| - 1], uid, kind, code, name) +
      if p.uid != uid || p.reportType != kind then 0
      else EventsOf(p.events, code, name) + QuintuplesOf(p.quintuples, code, name)
  }

  lemma SameLabel(uid: string, kind: int, code: int, name: string, uid': string, kind': int, code': int, name': string)
    ensures EventLabel(Slot(uid, FormatInt(kind)), FormatInt(code), name) ==
            EventLabel(Slot(uid', FormatInt(kind')), FormatInt(code'), name')
            <==> uid == uid' && kind == kind' && code == code' && name == name'
  {
    hide FormatInt;
    if FormatInt(kind) == FormatInt(kind') { FormatIntInjective(kind, kind'); }
    if FormatInt(code) == FormatInt(code') { FormatIntInjective(code, code'); }
  }

  function Occurrences(items: seq<Item>, series: EventLabel): nat {
    if items == [] then 0
    else Occurrences(items[..|items| - 1], series) + if items[|items| - 1].Label() == series then 1 else 0
  }

  lemma {:induction false} OccurrencesAppend(a: seq<Item>, b: seq<Item>, series: EventLabel)
    ensures Occurrences(a + b, series) == Occurrences(a, series) + Occurrences(b, series)
    decreases |b|
  {
    hide FormatInt;
    if b == [] {
      assert a + b == a;
    } else {
      assert (a + b)[..|a + b| - 1] == a + b[..|b| - 1];
      OccurrencesAppend(a, b[..|b| - 1], series);
    }
  }

  lemma {:induction false} LabelsCount(items: seq<Item>, series: EventLabel)
    ensures multiset(Labels(items))[series] == Occurrences(items, series)
  {
    hide FormatInt;
    if items != [] {
      LabelsCount(items[..|items| - 1], series);
      assert Labels(items) == Labels(items[..|items| - 1]) + [items[|items| - 1].Label()];
    }
  }

  function EventItems(p: Parsed, n: nat): (items: seq<Item>)
    requires n <= |p.events|
    ensures |items| == n && forall i :: 0 <= i < n ==> items[i] == Seen(SlotOf(p), p.events[i])
  {
    seq(n, i requires 0 <= i < n => Seen(SlotOf(p), p.events[i]))
  }

  function QuintupleItems(p: Parsed, n: nat): seq<Item>
    requires n <= |p.quintuples|
  {
    seq(n, i requires 0 <= i < n => SeenQuintuple(SlotOf(p), p.quintuples[i].code, p.quintuples[i].name))
  }

  lemma {:induction false} EventsCount(p: Parsed, n: nat, uid: string, kind: int, code: int, name: string)
    requires n <= |p.events|
    ensures Occurrences(EventItems(p, n), EventLabel(Slot(uid, FormatInt(kind)), FormatInt(code), name)) ==
            if p.uid == uid && p.reportType == kind then EventsOf(p.events[..n], code, name) else 0
  {
    hide FormatInt;
    if n > 0 {
      EventsCount(p, n - 1, uid, kind, code, name);
      assert EventItems(p, n)[..n - 1] == EventItems(p, n - 1) && p.events[..n][..n - 1] == p.events[..n - 1];
      var ev := p.events[n - 1];
      SameLabel(p.uid, p.reportType, ev.code, ev.name, uid, kind, code, name);
      assert EventItems(p, n)[n - 1] == Seen(Slot(p.uid, FormatInt(p.reportType)), ev);
    }
  }

  lemma {:induction false} QuintuplesCount(p: Parsed, n: nat, uid: string, kind: int, code: int, name: string)
    requires n <= |p.quintuples|
    ensures Occurrences(QuintupleItems(p, n), EventLabel(Slot(uid, FormatInt(kind)), FormatInt(code), name)) ==
            if p.uid == uid && p.reportType == kind then QuintuplesOf(p.quintuples[..n], code, name) else 0
  {
    hide FormatInt;
    if n > 0 {
      QuintuplesCount(p, n - 1, uid, kind, code, name);
      assert QuintupleItems(p, n)[..n - 1] == QuintupleItems(p, n - 1);
      assert p.quintuples[..n][..n - 1] == p.quintuples[..n - 1];
      var q := p.quintuples[n - 1];
      SameLabel(p.uid, p.reportType, q.code, q.name, uid, kind, code, name);
      assert QuintupleItems(p, n)[n - 1].Label() ==
             EventLabel(Slot(p.uid, FormatInt(p.reportType)), FormatInt(q.code), q.name);
    }
  }

  lemma {:induction false} ItemsCount(uploads: seq<Parsed>, uid: string, kind: int, code: int, name: string)
    ensures Occurrences(AllItems(uploads), EventLabel(Slot(uid, FormatInt(kind)), FormatInt(code), name)) ==
            Reported(uploads, uid, kind, code, name)
  {
    hide FormatInt, SlotOf, Occurrences, EventsOf, QuintuplesOf, Items;
    if uploads != [] {
      var front, p := uploads[..|uploads| - 1], uploads[|uploads| - 1];
      var series := EventLabel(Slot(uid, FormatInt(kind)), FormatInt(code), name);
      ItemsCount(front, uid, kind, code, name);
      SplitItems(p);
      OccurrencesAppend(AllItems(front), Items(p), series);
      OccurrencesAppend(EventItems(p, |p.events|), QuintupleItems(p, |p.quintuples|), series);
      EventsCount(p, |p.events|, uid, kind, code, name);
      QuintuplesCount(p, |p.quintuples|, uid, kind, code, name);
      assert p.events[..|p.events|] == p.events && p.quintuples[..|p.quintuples|] == p.quintuples;
    } else {
      NoOccurrences(EventLabel(Slot(uid, FormatInt(kind)), FormatInt(code), name));
    }
  }

  lemma NoOccurrences(series: EventLabel)
    ensures Occurrences([], series) == 0
  {}

  lemma SplitItems(p: Parsed)
    ensures Items(p) == EventItems(p, |p.events|) + QuintupleItems(p, |p.quintuples|)
  {
    hide SlotOf;
  }

  /** After any uploads, the counter labelled with a UID, a slot, a code and a name holds how many events
      and quintuples with that code and name that device has uploaded for that slot. */
  lemma EventTotals(uploads: seq<Parsed>, uid: string, kind: int, code: int, name: string)
    ensures AfterUploads(uploads).events[EventLabel(Slot(uid, FormatInt(kind)), FormatInt(code), name)] ==
            Reported(uploads, uid, kind, code, name)
  {
    hide FormatInt, AfterUploads, Labels, AllItems, Occurrences, Reported;
    CountersExact(uploads);
    LabelsCount(AllItems(uploads), EventLabel(Slot(uid, FormatInt(kind)), FormatInt(code), name));
    ItemsCount(uploads, uid, kind, code, name);
  }

  // ---------------------------------------------------------------------------------------------
  // Wi-Fi events

  /** Code-75 events whose value is this reason and not a scan time-out. */
  function WiFiEvents(events: seq<Event>, reason: int): nat {
    if events == [] then 0
    else
      var last := events[|events| - 1];
      WiFiEvents(events[..|events| - 1], reason) +
      if last.code == 75 && last.value % 0x1_0000_0000 != 0 && last.value % 0x100 == reason then 1 else 0
  }

  function ScanTimeouts(events: seq<Event>): nat {
    if events == [] then 0
    else
      var last := events[|events| - 1];
      ScanTimeouts(events[..|events| - 1]) + if last.code == 75 && last.value % 0x1_0000_0000 == 0 then 1 else 0
  }

  function ReasonsReported(uploads: seq<Parsed>, uid: string, kind: int, reason: int): nat {
    if uploads == [] then 0
    else
      var p := uploads[|uploads| - 1];
      ReasonsReported(uploads[..|uploads| - 1], uid, kind, reason) +
      if p.uid == uid && p.reportType == kind then WiFiEvents(p.events, reason) else 0
  }

  function TimeoutsReported(uploads: seq<Parsed>): nat {
    if uploads == [] then 0
    else TimeoutsReported(uploads[..|uploads| - 1]) + ScanTimeouts(uploads[|uploads| - 1].events)
  }

  lemma LowByte(value: int, raw: int, k: int)
    requires value == raw + k * TWO_TO_THE_32
    ensures raw % 0x100 == value % 0x100
  {
    assert value == raw + (k * 0x100_0000) * 0x100;
  }

  lemma ReasonByte(value: int)
    requires value % 0x1_0000_0000 != 0
    ensures !DecodeCode75(value).scanTimeout && DecodeCode75(value).reason == value % 0x100
  {
    var raw, k := value % TWO_TO_THE_32, value / TWO_TO_THE_32;
    LowByte(value, raw, k);
    hide Int16;
  }

  lemma SameReason(uid: string, kind: int, reason: int, uid': string, kind': int, reason': int)
    ensures ReasonLabel(Slot(uid, FormatInt(kind)), FormatInt(reason)) ==
            ReasonLabel(Slot(uid', FormatInt(kind')), FormatInt(reason'))
            <==> uid == uid' && kind == kind' && reason == reason'
  {
    hide FormatInt;
    if FormatInt(kind) == FormatInt(kind') { FormatIntInjective(kind, kind'); }
    if FormatInt(reason) == FormatInt(reason') { FormatIntInjective(reason, reason'); }
  }

  lemma {:induction false} ReasonsAppend(a: seq<Item>, b: seq<Item>)
    ensures Reasons(a + b) == Reasons(a) + Reasons(b)
    ensures Times(a + b, IsTimeout) == Times(a, IsTimeout) + Times(b, IsTimeout)
    decreases |b|
  {
    hide FormatInt, DecodeCode75, IsTimeout;
    if b == [] {
      assert a + b == a;
    } else {
      assert (a + b)[..|a + b| - 1] == a + b[..|b| - 1];
      ReasonsAppend(a, b[..|b| - 1]);
    }
  }

  lemma ZeroTimesOut(value: int)
    requires value % 0x1_0000_0000 == 0
    ensures DecodeCode75(value).scanTimeout
  {}

  /** One more item. */
  lemma ItemRead(items: seq<Item>, p: Parsed, ev: Event)
    ensures var all := items + [Seen(SlotOf(p), ev)];
            && Reasons(all) == Reasons(items) +
               (if ev.code == 75 && ev.value % 0x1_0000_0000 != 0
                then [ReasonLabel(Slot(p.uid, FormatInt(p.reportType)), FormatInt(ev.value % 0x100))] else [])
            && Times(all, IsTimeout) ==
               Times(items, IsTimeout) + if ev.code == 75 && ev.value % 0x1_0000_0000 == 0 then 1 else 0
  {
    hide FormatInt, DecodeCode75;
    if ev.value % 0x1_0000_0000 != 0 { ReasonByte(ev.value); } else { ZeroTimesOut(ev.value); }
    var all := items + [Seen(SlotOf(p), ev)];
    assert all[..|items|] == items;
  }

  lemma {:induction false} WiFiCount(p: Parsed, n: nat, uid: string, kind: int, reason: int)
    requires n <= |p.events|
    ensures multiset(Reasons(EventItems(p, n)))[ReasonLabel(Slot(uid, FormatInt(kind)), FormatInt(reason))] ==
            if p.uid == uid && p.reportType == kind then WiFiEvents(p.events[..n], reason) else 0
    ensures Times(EventItems(p, n), IsTimeout) == ScanTimeouts(p.events[..n])
  {
    hide FormatInt, Reasons, Times, IsTimeout, SlotOf;
    if n > 0 {
      WiFiCount(p, n - 1, uid, kind, reason);
      var ev := p.events[n - 1];
      assert EventItems(p, n) == EventItems(p, n - 1) + [Seen(SlotOf(p), ev)];
      assert p.events[..n][..n - 1] == p.events[..n - 1];
      ItemRead(EventItems(p, n - 1), p, ev);
      SameReason(p.uid, p.reportType, ev.value % 0x100, uid, kind, reason);
    } else {
      NothingCounted();
      assert EventItems(p, 0) == [];
    }
  }

  lemma {:induction false} QuintuplesNoWiFi(p: Parsed, n: nat)
    requires n <= |p.quintuples|
    ensures Reasons(QuintupleItems(p, n)) == [] && Times(QuintupleItems(p, n), IsTimeout) == 0
  {
    hide FormatInt;
    if n > 0 {
      QuintuplesNoWiFi(p, n - 1);
      assert QuintupleItems(p, n)[..n - 1] == QuintupleItems(p, n - 1);
    }
  }

  lemma {:induction false} WiFiItems(uploads: seq<Parsed>, uid: string, kind: int, reason: int)
    ensures multiset(Reasons(AllItems(uploads)))[ReasonLabel(Slot(uid, FormatInt(kind)), FormatInt(reason))] ==
            ReasonsReported(uploads, uid, kind, reason)
    ensures Times(AllItems(uploads), IsTimeout) == TimeoutsReported(uploads)
  {
    hide FormatInt, SlotOf, Reasons, Times, WiFiEvents, ScanTimeouts, IsTimeout, Items;
    if uploads != [] {
      var front, p := uploads[..|uploads| - 1], uploads[|uploads| - 1];
      WiFiItems(front, uid, kind, reason);
      SplitItems(p);
      var es, qs := EventItems(p, |p.events|), QuintupleItems(p, |p.quintuples|);
      ReasonsAppend(AllItems(front), es + qs);
      ReasonsAppend(es, qs);
      QuintuplesNoWiFi(p, |p.quintuples|);
      WiFiCount(p, |p.events|, uid, kind, reason);
      assert p.events[..|p.events|] == p.events;
    } else {
      NothingCounted();
    }
  }

  lemma NothingCounted()
    ensures Reasons([]) == [] && Times([], IsTimeout) == 0
  {}

  /** Every code-75 event counts as a scan time-out if its value is 0 modulo 2^32, and otherwise once under
      its device, slot and low byte. */
  lemma WiFiTotals(uploads: seq<Parsed>, uid: string, kind: int, reason: int)
    ensures AfterUploads(uploads).timeouts == TimeoutsReported(uploads)
    ensures AfterUploads(uploads).reasons[ReasonLabel(Slot(uid, FormatInt(kind)), FormatInt(reason))] ==
            ReasonsReported(uploads, uid, kind, reason)
  {
    hide FormatInt, AfterUploads, Reasons, AllItems, Times, IsTimeout, TimeoutsReported, ReasonsReported;
    CountersExact(uploads);
    WiFiItems(uploads, uid, kind, reason);
  }
}
