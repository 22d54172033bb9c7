/** emulator/solar_errinfo.go: the puterrinfo upload "uid:int:...:int:entry,entry,..." and its parser.

The functions say what an upload means; the methods below them run the source's loops. */
module ErrInfo {
  import opened Options
  import opened Text
  import opened ErrInfoCodes

  datatype Event = Event(code: int, ts: int, value: int, name: string)

  datatype Quintuple = Quintuple(code: int, subB: int, subC: int, subD: int, value: int, name: string)

  /** The `arity` of an entry is 3 in triple reports and 5 in quintuple reports. */
  datatype ParseError = EmptyBody | BadParts(arity: nat, entry: string) | BadField(arity: nat, entry: string)

  datatype NamedHeader = NamedHeader(softwareVersion: int, field2: int, field3: int, field4: int, field5: int)

  datatype Parsed = Parsed(
    uid: string, reportType: int, header: seq<int>, named: NamedHeader,
    events: seq<Event>, quintuples: seq<Quintuple>, distinctCodes: seq<int>, distinctValues: seq<int>,
    oldestTS: int, newestTS: int, parseErrors: seq<ParseError>)

  // ---------------------------------------------------------------------------------------------
  // Entries

  datatype Entry = Blank | Bad(error: ParseError) | Good(values: seq<int>)

  predicate AllInts(parts: seq<string>) {
    forall i :: 0 <= i < |parts| ==> ParseInt(parts[i]).Some?
  }

  function Ints(parts: seq<string>): (ns: seq<int>)
    requires AllInts(parts)
  {
    seq(|parts|, i requires 0 <= i < |parts| => ParseInt(parts[i]).value)
  }

  function ParseEntry(raw: string, arity: nat): Entry {
    var entry := Trim(raw);
    if entry == "" then Blank
    else
      var parts := SplitN(entry, '.', arity);
      if |parts| != arity then Bad(BadParts(arity, entry))
      else if !AllInts(parts) then Bad(BadField(arity, entry))
      else Good(Ints(parts))
  }

  predicate Sized(entries: seq<Entry>, arity: nat) {
    forall i :: 0 <= i < |entries| && entries[i].Good? ==> |entries[i].values| == arity
  }

  function ParseEntries(tokens: seq<string>, arity: nat): (entries: seq<Entry>)
    ensures |entries| == |tokens| && Sized(entries, arity)
    ensures forall i :: 0 <= i < |tokens| ==> entries[i] == ParseEntry(tokens[i], arity)
  {
    seq(|tokens|, i requires 0 <= i < |tokens| => ParseEntry(tokens[i], arity))
  }

  function Entries(blob: string, arity: nat): (entries: seq<Entry>)
    ensures Sized(entries, arity)
  {
    ParseEntries(Split(blob, ','), arity)
  }

  function Values(entries: seq<Entry>, arity: nat): (vs: seq<seq<int>>)
    requires Sized(entries, arity)
    ensures forall i :: 0 <= i < |vs| ==> |vs[i]| == arity
  {
    if entries == [] then []
    else
      var last := entries[|entries| - 1];
      Values(entries[..|entries| - 1], arity) + if last.Good? then [last.values] else []
  }

  function Errors(entries: seq<Entry>): seq<ParseError> {
    if entries == [] then []
    else
      var last := entries[|entries| - 1];
      Errors(entries[..|entries| - 1]) + if last.Bad? then [last.error] else []
  }

  function NonBlank(tokens: seq<string>): nat {
    if tokens == [] then 0
    else NonBlank(tokens[..|tokens| - 1]) + if Trim(tokens[|tokens| - 1]) == "" then 0 else 1
  }

  function EventOf(names: map<int, string>, v: seq<int>): Event
    requires |v| == 3
  {
    Event(v[0], v[1], v[2], CodeLabel(names, v[0]))
  }

  function QuintupleOf(names: map<int, string>, v: seq<int>): Quintuple
    requires |v| == 5
  {
    Quintuple(v[0], v[1], v[2], v[3], v[4], CodeLabel(names, v[0]))
  }

  function Events(names: map<int, string>, vs: seq<seq<int>>): seq<Event>
    requires forall i :: 0 <= i < |vs| ==> |vs[i]| == 3
  {
    seq(|vs|, i requires 0 <= i < |vs| => EventOf(names, vs[i]))
  }

  function Quintuples(names: map<int, string>, vs: seq<seq<int>>): seq<Quintuple>
    requires forall i :: 0 <= i < |vs| ==> |vs[i]| == 5
  {
    seq(|vs|, i requires 0 <= i < |vs| => QuintupleOf(names, vs[i]))
  }

  /** One field of every entry. */
  function Column(vs: seq<seq<int>>, k: nat): (ns: seq<int>)
    requires forall i :: 0 <= i < |vs| ==> k < |vs[i]|
  {
    seq(|vs|, i requires 0 <= i < |vs| => vs[i][k])
  }

  // ---------------------------------------------------------------------------------------------
  // Distinct values in ascending order

  function Elements(ns: seq<int>): set<int> { set n | n in ns }

  predicate Ascending(ns: seq<int>) {
    forall i, j :: 0 <= i < j < |ns| ==> ns[i] < ns[j]
  }

  function Insert(ns: seq<int>, n: int): seq<int> {
    if ns == [] || n < ns[0] then [n] + ns
    else if n == ns[0] then ns
    else [ns[0]] + Insert(ns[1..], n)
  }

  function Distinct(ns: seq<int>): seq<int> {
    if ns == [] then [] else Insert(Distinct(ns[..|ns| - 1]), ns[|ns| - 1])
  }

  lemma {:induction false} InsertElements(ns: seq<int>, n: int)
    ensures forall x :: x in Insert(ns, n) <==> x in ns || x == n
  {
    if ns != [] && n > ns[0] {
      InsertElements(ns[1..], n);
      assert ns == [ns[0]] + ns[1..];
    }
  }

  lemma {:induction false} InsertAscending(ns: seq<int>, n: int)
    requires Ascending(ns)
    ensures Ascending(Insert(ns, n))
  {
    if ns != [] && n > ns[0] {
      InsertAscending(ns[1..], n);
      var rest := Insert(ns[1..], n);
      forall i | 0 <= i < |rest| ensures rest[i] > ns[0] {
        InsertElements(ns[1..], n);
        assert rest[i] in rest;
        AscendingTail(ns);
      }
    }
  }

  /** The list is strictly increasing and holds exactly the numbers given. */
  lemma {:induction false} DistinctFacts(ns: seq<int>)
    ensures Ascending(Distinct(ns))
    ensures forall x :: x in Distinct(ns) <==> x in ns
  {
    if ns != [] {
      var front := ns[..|ns| - 1];
      DistinctFacts(front);
      InsertElements(Distinct(front), ns[|ns| - 1]);
      InsertAscending(Distinct(front), ns[|ns| - 1]);
      assert ns == front + [ns[|ns| - 1]];
    }
  }

  lemma AscendingTail(a: seq<int>)
    requires a != [] && Ascending(a)
    ensures Ascending(a[1..]) && forall x :: x in a[1..] <==> x in a && x != a[0]
    ensures forall x :: x in a[1..] ==> x > a[0]
  {
    assert a == [a[0]] + a[1..];
    assert forall i :: 0 <= i < |a| - 1 ==> a[1..][i] > a[0];
  }

  /** A strictly increasing list is determined by its elements, whatever order they arrived in. */
  lemma {:induction false} AscendingUnique(a: seq<int>, b: seq<int>)
    requires Ascending(a) && Ascending(b) && forall x :: x in a <==> x in b
    ensures a == b
  {
    assert a != [] ==> a[0] in a;
    assert b != [] ==> b[0] in b;
    if a != [] && b != [] {
      assert a[0] in a && a[0] in b && b[0] in b && b[0] in a;
      assert a[0] == b[0];
      AscendingTail(a);
      AscendingTail(b);
      AscendingUnique(a[1..], b[1..]);
    }
  }

  lemma DistinctOf(ns: seq<int>, keys: seq<int>)
    requires Ascending(keys) && forall x :: x in keys <==> x in ns
    ensures Distinct(ns) == keys
  {
    DistinctFacts(ns);
    AscendingUnique(Distinct(ns), keys);
  }

  // ---------------------------------------------------------------------------------------------
  // Oldest and newest time stamp; 0 stands for "none yet"

  function Oldest(start: int, stamps: seq<int>): int {
    if stamps == [] then start
    else
      var oldest := Oldest(start, stamps[..|stamps| - 1]);
      var ts := stamps[|stamps| - 1];
      if oldest == 0 || ts < oldest then ts else oldest
  }

  function Newest(start: int, stamps: seq<int>): int {
    if stamps == [] then start
    else
      var newest := Newest(start, stamps[..|stamps| - 1]);
      var ts := stamps[|stamps| - 1];
      if ts > newest then ts else newest
  }

  predicate IsMin(m: int, ns: seq<int>) { m in ns && forall n :: n in ns ==> m <= n }

  predicate IsMax(m: int, ns: seq<int>) { m in ns && forall n :: n in ns ==> n <= m }

  function LeastOf(ns: seq<int>): (m: int)
    requires ns != []
  {
    if |ns| == 1 then ns[0]
    else
      var least, last := LeastOf(ns[..|ns| - 1]), ns[|ns| - 1];
      if last < least then last else least
  }

  lemma {:induction false} LeastIsMin(ns: seq<int>)
    requires ns != []
    ensures IsMin(LeastOf(ns), ns)
  {
    if |ns| > 1 {
      LeastIsMin(ns[..|ns| - 1]);
      assert ns == ns[..|ns| - 1] + [ns[|ns| - 1]];
    }
  }

  /** The running minimum is the least stamp unless that is 0; then it is 0 exactly if the last stamp is. */
  lemma {:induction false} OldestBounds(stamps: seq<int>)
    requires stamps != []
    ensures LeastOf(stamps) != 0 ==> Oldest(0, stamps) == LeastOf(stamps)
    ensures LeastOf(stamps) == 0 ==> Oldest(0, stamps) >= 0 && (Oldest(0, stamps) == 0 <==> stamps[|stamps| - 1] == 0)
  {
    if |stamps| > 1 { OldestBounds(stamps[..|stamps| - 1]); }
  }

  lemma OldestExact(stamps: seq<int>, m: int)
    requires IsMin(m, stamps)
    ensures Oldest(0, stamps) == m <==> m != 0 || stamps[|stamps| - 1] == 0
  {
    LeastIsMin(stamps);
    OldestBounds(stamps);
    assert LeastOf(stamps) <= m;
  }

  lemma {:induction false} NewestBounds(start: int, stamps: seq<int>)
    ensures Newest(start, stamps) >= start && forall n :: n in stamps ==> n <= Newest(start, stamps)
    ensures Newest(start, stamps) == start || Newest(start, stamps) in stamps
  {
    if stamps != [] {
      NewestBounds(start, stamps[..|stamps| - 1]);
      assert stamps == stamps[..|stamps| - 1] + [stamps[|stamps| - 1]];
    }
  }

  lemma NewestExact(stamps: seq<int>, m: int)
    requires IsMax(m, stamps)
    ensures Newest(0, stamps) == m <==> m >= 0
  {
    NewestBounds(0, stamps);
  }

  // ---------------------------------------------------------------------------------------------
  // The upload

  /** The leading integers among the tokens. */
  function Header(tokens: seq<string>): (header: seq<int>)
    ensures |header| <= |tokens|
  {
    if tokens == [] || ParseInt(Trim(tokens[0])).None? then []
    else [ParseInt(Trim(tokens[0])).value] + Header(tokens[1..])
  }

  /** The text from the first token on that is no integer. */
  function Blob(tokens: seq<string>): string { Join(tokens[|Header(tokens)|..], ':') }

  function ReportType(header: seq<int>): int { if header == [] then -1 else header[0] }

  function Arity(reportType: int): nat { if reportType == 1 || reportType == 2 then 5 else 3 }

  function Name(header: seq<int>): NamedHeader {
    if |header| >= 6 then NamedHeader(header[1], header[2], header[3], header[4], header[5])
    else if |header| >= 2 then NamedHeader(header[1], 0, 0, 0, 0)
    else NamedHeader(0, 0, 0, 0, 0)
  }

  function Report(names: map<int, string>, uid: string, header: seq<int>, entries: seq<Entry>): Parsed
    requires Sized(entries, Arity(ReportType(header)))
  {
    var arity := Arity(ReportType(header));
    var vs := Values(entries, arity);
    if arity == 5 then
      Parsed(uid, ReportType(header), header, Name(header), [], Quintuples(names, vs),
             Distinct(Column(vs, 0)), [], 0, 0, Errors(entries))
    else
      Parsed(uid, ReportType(header), header, Name(header), Events(names, vs), [],
             Distinct(Column(vs, 0)), Distinct(Column(vs, 2)), Oldest(0, Column(vs, 1)), Newest(0, Column(vs, 1)),
             Errors(entries))
  }

  /** What an upload means. */
  function Meaning(names: map<int, string>, raw: string): Parsed {
    var s := Trim(raw);
    if s == "" then Parsed("", -1, [], Name([]), [], [], [], [], 0, 0, [EmptyBody])
    else
      var tokens := Split(s, ':');
      var header := Header(tokens[1..]);
      Report(names, tokens[0], header, Entries(Blob(tokens[1..]), Arity(ReportType(header))))
  }

  // ---------------------------------------------------------------------------------------------
  // The parser

  /** What parseTriples and parseQuintuples write through their pointer and map arguments. */
  datatype Tally = Tally(errors: seq<ParseError>, codes: set<int>, values: set<int>, oldest: int, newest: int)

  const NOTHING := Tally([], {}, {}, 0, 0)

  class Progress {
    var parseErrors: seq<ParseError>
    var codeSet: set<int>
    var valueSet: set<int>
    var oldestTS: int
    var newestTS: int

    function Tallied(): Tally
      reads this
    {
      Tally(parseErrors, codeSet, valueSet, oldestTS, newestTS)
    }

    constructor ()
      ensures Tallied() == NOTHING
    {
      parseErrors, codeSet, valueSet, oldestTS, newestTS := [], {}, {}, 0, 0;
    }
  }

  /** One entry of a triple report. */
  function AddTriple(t: Tally, entry: Entry): Tally
    requires entry.Good? ==> |entry.values| == 3
  {
    match entry
    case Blank => t
    case Bad(error) => t.(errors := t.errors + [error])
    case Good(v) =>
      Tally(t.errors, t.codes + {v[0]}, t.values + {v[2]},
            if t.oldest == 0 || v[1] < t.oldest then v[1] else t.oldest,
            if v[1] > t.newest then v[1] else t.newest)
  }

  function AddTriples(t: Tally, entries: seq<Entry>): Tally
    requires Sized(entries, 3)
  {
    if entries == [] then t else AddTriple(AddTriples(t, entries[..|entries| - 1]), entries[|entries| - 1])
  }

  /** One entry of a quintuple report. */
  function AddQuintuple(t: Tally, entry: Entry): Tally
    requires entry.Good? ==> |entry.values| == 5
  {
    match entry
    case Blank => t
    case Bad(error) => t.(errors := t.errors + [error])
    case Good(v) => t.(codes := t.codes + {v[0]})
  }

  function AddQuintuples(t: Tally, entries: seq<Entry>): Tally
    requires Sized(entries, 5)
  {
    if entries == [] then t else AddQuintuple(AddQuintuples(t, entries[..|entries| - 1]), entries[|entries| - 1])
  }

  /** The tally of a whole triple report, column by column. */
  lemma {:induction false} TriplesTally(entries: seq<Entry>)
    requires Sized(entries, 3)
    ensures var vs := Values(entries, 3);
            AddTriples(NOTHING, entries) ==
            Tally(Errors(entries), Elements(Column(vs, 0)), Elements(Column(vs, 2)),
                  Oldest(0, Column(vs, 1)), Newest(0, Column(vs, 1)))
  {
    if entries != [] {
      var front, last := entries[..|entries| - 1], entries[|entries| - 1];
      TriplesTally(front);
      if last.Good? {
        var vs := Values(front, 3);
        ColumnSnoc(vs, last.values, 0);
        ColumnSnoc(vs, last.values, 1);
        ColumnSnoc(vs, last.values, 2);
      } else {
        assert Values(entries, 3) == Values(front, 3);
      }
    }
  }

  lemma {:induction false} QuintuplesTally(entries: seq<Entry>)
    requires Sized(entries, 5)
    ensures AddQuintuples(NOTHING, entries) ==
            Tally(Errors(entries), Elements(Column(Values(entries, 5), 0)), {}, 0, 0)
  {
    if entries != [] {
      var front, last := entries[..|entries| - 1], entries[|entries| - 1];
      QuintuplesTally(front);
      if last.Good? {
        ColumnSnoc(Values(front, 5), last.values, 0);
      } else {
        assert Values(entries, 5) == Values(front, 5);
      }
    }
  }

  lemma ColumnSnoc(vs: seq<seq<int>>, v: seq<int>, k: nat)
    requires (forall i :: 0 <= i < |vs| ==> k < |vs[i]|) && k < |v|
    ensures Column(vs + [v], k) == Column(vs, k) + [v[k]]
    ensures Elements(Column(vs + [v], k)) == Elements(Column(vs, k)) + {v[k]}
    ensures Column(vs + [v], k)[..|vs|] == Column(vs, k)
  {
    assert Column(vs + [v], k) == Column(vs, k) + [v[k]];
  }

  /** One round of the loop of parseTriples. */
  method ParseTriple(names: map<int, string>, raw: string, p: Progress) returns (event: Option<Event>)
    modifies p
    ensures var entry := ParseEntry(raw, 3);
            && event == (if entry.Good? then Some(EventOf(names, entry.values)) else None)
            && p.Tallied() == AddTriple(old(p.Tallied()), entry)
  {
    hide ParseInt, Trim, SplitN;
    event := None;
    var entry := Trim(raw);
    if entry == "" { return; }
    var parts := SplitN(entry, '.', 3);
    if |parts| != 3 {
      p.parseErrors := p.parseErrors + [BadParts(3, entry)];
      return;
    }
    var code, ts, val := ParseInt(parts[0]), ParseInt(parts[1]), ParseInt(parts[2]);
    if code.None? || ts.None? || val.None? {
      p.parseErrors := p.parseErrors + [BadField(3, entry)];
      return;
    }
    assert Ints(parts) == [code.value, ts.value, val.value];
    event := Some(Event(code.value, ts.value, val.value, CodeLabel(names, code.value)));
    p.codeSet := p.codeSet + {code.value};
    p.valueSet := p.valueSet + {val.value};
    if p.oldestTS == 0 || ts.value < p.oldestTS { p.oldestTS := ts.value; }
    if ts.value > p.newestTS { p.newestTS := ts.value; }
  }

  lemma NextTriple(names: map<int, string>, t: Tally, entries: seq<Entry>, i: nat)
    requires Sized(entries, 3) && i < |entries|
    ensures AddTriples(t, entries[..i + 1]) == AddTriple(AddTriples(t, entries[..i]), entries[i])
    ensures Events(names, Values(entries[..i + 1], 3)) ==
            Events(names, Values(entries[..i], 3)) +
            if entries[i].Good? then [EventOf(names, entries[i].values)] else []
  {
    hide EventOf, AddTriple;
    assert entries[..i + 1][..i] == entries[..i];
  }

  lemma NoTriples(names: map<int, string>, t: Tally)
    ensures AddTriples(t, []) == t && Events(names, Values([], 3)) == []
  {}

  method ParseTriples(names: map<int, string>, blob: string, p: Progress) returns (events: seq<Event>)
    modifies p
    ensures events == Events(names, Values(Entries(blob, 3), 3))
    ensures p.Tallied() == AddTriples(old(p.Tallied()), Entries(blob, 3))
  {
    hide ParseEntry, Split, EventOf, AddTriple, AddTriples, Values, Events;
    var tokens := Split(blob, ',');
    ghost var entries := Entries(blob, 3);
    NoTriples(names, p.Tallied());
    events := [];
    var i := 0;
    while i < |tokens|
      invariant 0 <= i <= |tokens|
      invariant events == Events(names, Values(entries[..i], 3))
      invariant p.Tallied() == AddTriples(old(p.Tallied()), entries[..i])
    {
      var event := ParseTriple(names, tokens[i], p);
      NextTriple(names, old(p.Tallied()), entries, i);
      if event.Some? { events := events + [event.value]; }
      i := i + 1;
    }
    assert entries[..i] == entries;
  }

  /** One round of the loop of parseQuintuples. */
  method ParseQuintuple(names: map<int, string>, raw: string, p: Progress) returns (q: Option<Quintuple>)
    modifies p
    ensures var entry := ParseEntry(raw, 5);
            && q == (if entry.Good? then Some(QuintupleOf(names, entry.values)) else None)
            && p.Tallied() == AddQuintuple(old(p.Tallied()), entry)
  {
    hide ParseInt, Trim, SplitN;
    q := None;
    var entry := Trim(raw);
    if entry == "" { return; }
    var parts := SplitN(entry, '.', 5);
    if |parts| != 5 {
      p.parseErrors := p.parseErrors + [BadParts(5, entry)];
      return;
    }
    var a, b, c := ParseInt(parts[0]), ParseInt(parts[1]), ParseInt(parts[2]);
    var d, val := ParseInt(parts[3]), ParseInt(parts[4]);
    if a.None? || b.None? || c.None? || d.None? || val.None? {
      p.parseErrors := p.parseErrors + [BadField(5, entry)];
      return;
    }
    assert Ints(parts) == [a.value, b.value, c.value, d.value, val.value];
    q := Some(Quintuple(a.value, b.value, c.value, d.value, val.value, CodeLabel(names, a.value)));
    p.codeSet := p.codeSet + {a.value};
  }

  lemma NextQuintuple(names: map<int, string>, t: Tally, entries: seq<Entry>, i: nat)
    requires Sized(entries, 5) && i < |entries|
    ensures AddQuintuples(t, entries[..i + 1]) == AddQuintuple(AddQuintuples(t, entries[..i]), entries[i])
    ensures Quintuples(names, Values(entries[..i + 1], 5)) ==
            Quintuples(names, Values(entries[..i], 5)) +
            if entries[i].Good? then [QuintupleOf(names, entries[i].values)] else []
  {
    hide QuintupleOf, AddQuintuple;
    assert entries[..i + 1][..i] == entries[..i];
  }

  lemma NoQuintuples(names: map<int, string>, t: Tally)
    ensures AddQuintuples(t, []) == t && Quintuples(names, Values([], 5)) == []
  {}

  method ParseQuintuples(names: map<int, string>, blob: string, p: Progress) returns (qs: seq<Quintuple>)
    modifies p
    ensures qs == Quintuples(names, Values(Entries(blob, 5), 5))
    ensures p.Tallied() == AddQuintuples(old(p.Tallied()), Entries(blob, 5))
  {
    hide ParseEntry, Split, QuintupleOf, AddQuintuple, AddQuintuples, Values, Quintuples;
    var tokens := Split(blob, ',');
    ghost var entries := Entries(blob, 5);
    NoQuintuples(names, p.Tallied());
    qs := [];
    var i := 0;
    while i < |tokens|
      invariant 0 <= i <= |tokens|
      invariant qs == Quintuples(names, Values(entries[..i], 5))
      invariant p.Tallied() == AddQuintuples(old(p.Tallied()), entries[..i])
    {
      var q := ParseQuintuple(names, tokens[i], p);
      NextQuintuple(names, old(p.Tallied()), entries, i);
      if q.Some? { qs := qs + [q.value]; }
      i := i + 1;
    }
    assert entries[..i] == entries;
  }

  /** The keys of a Go map, taken in whatever order the map yields them, then sorted. */
  method SortedKeys(keys: set<int>) returns (sorted: seq<int>)
    ensures Ascending(sorted) && forall x :: x in sorted <==> x in keys
  {
    var list := [];
    var rest := keys;
    while rest != {}
      invariant rest <= keys && forall x :: x in keys <==> x in rest || x in list
      decreases |rest|
    {
      assert rest != {} ==> exists x :: x in rest by { assert (forall x :: x !in rest) ==> rest == {}; }
      var x :| x in rest;
      rest := rest - {x};
      list := list + [x];
    }
    DistinctFacts(list);
    sorted := Distinct(list);
  }

  /** What ParseEvents adds to the result for a non-empty events text. */
  method ParseEvents(names: map<int, string>, p0: Parsed, blob: string) returns (p: Parsed)
    requires p0.reportType == ReportType(p0.header) && p0.named == Name(p0.header)
    requires p0 == Parsed(p0.uid, p0.reportType, p0.header, p0.named, [], [], [], [], 0, 0, [])
    ensures p == Report(names, p0.uid, p0.header, Entries(blob, Arity(p0.reportType)))
  {
    p := p0;
    var progress := new Progress();
    if p.reportType == 1 || p.reportType == 2 {
      var qs := ParseQuintuples(names, blob, progress);
      QuintuplesTally(Entries(blob, 5));
      p := p.(quintuples := qs);
    } else {
      var events := ParseTriples(names, blob, progress);
      TriplesTally(Entries(blob, 3));
      var values := SortedKeys(progress.valueSet);
      DistinctOf(Column(Values(Entries(blob, 3), 3), 2), values);
      p := p.(events := events, distinctValues := values, oldestTS := progress.oldestTS, newestTS := progress.newestTS);
    }
    var codes := SortedKeys(progress.codeSet);
    DistinctOf(Column(Values(Entries(blob, Arity(p.reportType)), Arity(p.reportType)), 0), codes);
    p := p.(distinctCodes := codes, parseErrors := progress.parseErrors);
  }

  lemma {:induction false} HeaderIs(tokens: seq<string>, header: seq<int>)
    requires |header| <= |tokens| && forall i :: 0 <= i < |header| ==> ParseInt(Trim(tokens[i])) == Some(header[i])
    requires |header| < |tokens| ==> ParseInt(Trim(tokens[|header|])).None?
    ensures Header(tokens) == header
  {
    hide ParseInt, Trim;
    if header != [] {
      assert header == [header[0]] + header[1..];
      HeaderIs(tokens[1..], header[1..]);
    }
  }

  /** The header loop of parseSolarErrInfoBody. */
  method SplitHeader(tokens: seq<string>) returns (header: seq<int>, blob: string)
    ensures header == Header(tokens) && blob == Blob(tokens)
  {
    hide ParseInt, Trim, Join, Header;
    header, blob := [], "";
    var i := 0;
    while i < |tokens|
      invariant 0 <= i == |header| <= |tokens| && blob == ""
      invariant forall k :: 0 <= k < i ==> ParseInt(Trim(tokens[k])) == Some(header[k])
    {
      var n := ParseInt(Trim(tokens[i]));
      if n.None? {
        HeaderIs(tokens, header);
        blob := Join(tokens[i..], ':');
        return;
      }
      header := header + [n.value];
      i := i + 1;
    }
    HeaderIs(tokens, header);
    assert blob == Join([], ':') by { JoinNothing(); }
    assert tokens[i..] == [];
  }

  lemma JoinNothing()
    ensures Join<char>([], ':') == ""
  {}

  /** parseSolarErrInfoBody. */
  method ParseBody(names: map<int, string>, raw: string) returns (p: Parsed)
    ensures p == Meaning(names, raw)
  {
    p := Parsed("", -1, [], NamedHeader(0, 0, 0, 0, 0), [], [], [], [], 0, 0, []);
    var s := Trim(raw);
    if s == "" {
      p := p.(parseErrors := [EmptyBody]);
      return;
    }
    var tokens := Split(s, ':');
    p := p.(uid := tokens[0]);
    var header, blob := SplitHeader(tokens[1..]);
    p := p.(header := header);
    if |header| >= 1 { p := p.(reportType := header[0]); }
    if |header| >= 6 {
      p := p.(named := NamedHeader(header[1], header[2], header[3], header[4], header[5]));
    } else if |header| >= 2 {
      p := p.(named := p.named.(softwareVersion := header[1]));
    }
    if blob == "" {
      EmptyReport(names, p.uid, header);
    } else {
      p := ParseEvents(names, p, blob);
    }
  }

  lemma BlankEntry(entries: seq<Entry>, arity: nat)
    requires entries == [Blank]
    ensures Errors(entries) == [] && Values(entries, arity) == []
  {
    assert entries[..0] == [];
    assert Errors(entries[..0]) == [] && Values(entries[..0], arity) == [];
  }

  lemma EmptyReport(names: map<int, string>, uid: string, header: seq<int>)
    ensures Report(names, uid, header, Entries("", Arity(ReportType(header)))) ==
            Parsed(uid, ReportType(header), header, Name(header), [], [], [], [], 0, 0, [])
  {
    var entries := Entries("", Arity(ReportType(header)));
    assert Split<char>("", ',') == [""];
    assert entries == [Blank];
    BlankEntry(entries, Arity(ReportType(header)));
    assert forall k :: Column([], k) == [];
  }
}
