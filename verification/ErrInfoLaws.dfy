/** Laws of the puterrinfo parser: what it keeps, how it composes, and that it inverts the printer. */
module ErrInfoLaws {
  import opened Options
  import opened Text
  import opened ErrInfoCodes
  import opened ErrInfo

  // ---------------------------------------------------------------------------------------------
  // Nothing is lost

  /** Every non-blank entry becomes a good entry or an error. */
  lemma {:induction false} EntriesAddUp(tokens: seq<string>, arity: nat)
    ensures |Values(ParseEntries(tokens, arity), arity)| + |Errors(ParseEntries(tokens, arity))| == NonBlank(tokens)
  {
    hide Trim, ParseEntry;
    if tokens != [] {
      var front := tokens[..|tokens| - 1];
      EntriesAddUp(front, arity);
      assert ParseEntries(tokens, arity)[..|front|] == ParseEntries(front, arity);
      EntryKind(tokens[|front|], arity);
    }
  }

  lemma EntryKind(raw: string, arity: nat)
    ensures ParseEntry(raw, arity).Blank? <==> Trim(raw) == ""
  {
    hide Trim, ParseInt, SplitN;
  }

  /** The events text of an upload that is not blank. */
  function EventsText(raw: string): string { Blob(Split(Trim(raw), ':')[1..]) }

  /** Events, quintuples and parse errors together are the non-blank comma-separated entries. */
  lemma NothingLost(names: map<int, string>, raw: string)
    requires Trim(raw) != ""
    ensures var p := Meaning(names, raw);
            |p.events| + |p.quintuples| + |p.parseErrors| == NonBlank(Split(EventsText(raw), ','))
  {
    hide Trim, ParseEntry, Split, Blob, Header, Values, Errors, NonBlank, Distinct, Oldest, Newest;
    EntriesAddUp(Split(EventsText(raw), ','), Arity(Meaning(names, raw).reportType));
  }

  // ---------------------------------------------------------------------------------------------
  // Commas

  lemma {:induction false} ValuesAppend(a: seq<Entry>, b: seq<Entry>, arity: nat)
    requires Sized(a, arity) && Sized(b, arity)
    ensures Values(a + b, arity) == Values(a, arity) + Values(b, arity)
    ensures Errors(a + b) == Errors(a) + Errors(b)
    decreases |b|
  {
    if b == [] {
      assert a + b == a;
    } else {
      ValuesAppend(a, b[..|b| - 1], arity);
      assert (a + b)[..|a + b| - 1] == a + b[..|b| - 1];
    }
  }

  /** Joining two entry lists with a comma joins what they parse to, errors included. */
  lemma EntriesConcatenation(a: string, b: string, arity: nat)
    ensures Entries(a + "," + b, arity) == Entries(a, arity) + Entries(b, arity)
    ensures Values(Entries(a + "," + b, arity), arity) ==
            Values(Entries(a, arity), arity) + Values(Entries(b, arity), arity)
    ensures Errors(Entries(a + "," + b, arity)) == Errors(Entries(a, arity)) + Errors(Entries(b, arity))
  {
    hide ParseEntry, Split;
    SplitAppend(a, b, ',');
    assert Entries(a + "," + b, arity) == Entries(a, arity) + Entries(b, arity);
    ValuesAppend(Entries(a, arity), Entries(b, arity), arity);
  }

  // ---------------------------------------------------------------------------------------------
  // Where the header ends

  predicate IntTokens(tokens: seq<string>, header: seq<int>) {
    && |tokens| == |header|
    && forall i :: 0 <= i < |tokens| ==> ':' !in tokens[i] && ParseInt(Trim(tokens[i])) == Some(header[i])
  }

  /** A text whose first colon-separated token is no integer. */
  predicate StartsEvents(text: string) { ParseInt(Trim(Split(text, ':')[0])).None? }

  function Upload(uid: string, tokens: seq<string>, text: string): string {
    Join([uid] + tokens + [text], ':')
  }

  lemma JoinCons(parts: seq<string>)
    requires |parts| > 1
    ensures Join(parts, ':') == parts[0] + ":" + Join(parts[1..], ':')
  {}

  lemma {:induction false} SplitJoinWith(tokens: seq<string>, text: string)
    requires forall i :: 0 <= i < |tokens| ==> ':' !in tokens[i]
    ensures Split(Join(tokens + [text], ':'), ':') == tokens + Split(text, ':')
  {
    hide Split;
    if tokens == [] {
      assert tokens + [text] == [text];
    } else {
      hide Join;
      JoinCons(tokens + [text]);
      assert (tokens + [text])[1..] == tokens[1..] + [text];
      SplitJoinWith(tokens[1..], text);
      SplitWhole(tokens[0], ':');
      SplitAppend(tokens[0], Join(tokens[1..] + [text], ':'), ':');
      assert [tokens[0]] + (tokens[1..] + Split(text, ':')) == tokens + Split(text, ':');
    }
  }

  lemma MeaningOfUpload(names: map<int, string>, uid: string, tokens: seq<string>, header: seq<int>, text: string)
    requires ':' !in uid && IntTokens(tokens, header) && StartsEvents(text)
    requires Trim(Upload(uid, tokens, text)) == Upload(uid, tokens, text)
    ensures Meaning(names, Upload(uid, tokens, text)) ==
            Report(names, uid, header, Entries(text, Arity(ReportType(header))))
  {
    hide Trim, ParseEntry, Report, Entries, ParseInt, Split;
    var s := Upload(uid, tokens, text);
    assert s != "" by { UploadNonEmpty(uid, tokens, text); }
    SplitJoinWith([uid] + tokens, text);
    var parts := Split(s, ':');
    var rest := tokens + Split(text, ':');
    assert parts == [uid] + rest by { assert [uid] + tokens + Split(text, ':') == [uid] + rest; }
    assert parts[1..] == rest;
    HeaderIs(rest, header);
    assert rest[|header|..] == Split(text, ':');
    JoinSplit(text, ':');
  }

  lemma UploadNonEmpty(uid: string, tokens: seq<string>, text: string)
    ensures Upload(uid, tokens, text) != ""
  {}

  // ---------------------------------------------------------------------------------------------
  // Round trip

  predicate Int64s(ns: seq<int>) { forall i :: 0 <= i < |ns| ==> IsInt64(ns[i]) }

  function PrintInts(ns: seq<int>): (texts: seq<string>)
    ensures |texts| == |ns| && forall i :: 0 <= i < |ns| ==> texts[i] == FormatInt(ns[i])
  {
    seq(|ns|, i requires 0 <= i < |ns| => FormatInt(ns[i]))
  }

  function PrintEntry(values: seq<int>): string { Join(PrintInts(values), '.') }

  function PrintEntries(rows: seq<seq<int>>): (texts: seq<string>)
    ensures |texts| == |rows| && forall i :: 0 <= i < |rows| ==> texts[i] == PrintEntry(rows[i])
  {
    seq(|rows|, i requires 0 <= i < |rows| => PrintEntry(rows[i]))
  }

  /** The firmware's "uid:int:...:int:" followed by the entries, with or without a final comma. */
  function Print(uid: string, header: seq<int>, rows: seq<seq<int>>, comma: bool): string {
    Upload(uid, PrintInts(header), Join(PrintEntries(rows), ',') + if comma then "," else "")
  }

  lemma PrintedInts(ns: seq<int>)
    requires Int64s(ns)
    ensures AllInts(PrintInts(ns)) && Ints(PrintInts(ns)) == ns
    ensures forall i, c :: 0 <= i < |ns| && c in PrintInts(ns)[i] ==> c == '-' || IsDigit(c)
    ensures forall i :: 0 <= i < |ns| ==> PrintInts(ns)[i] != "" && Trim(PrintInts(ns)[i]) == PrintInts(ns)[i]
  {
    hide FormatInt, ParseInt, Trim, IsDigit;
    forall i | 0 <= i < |ns|
      ensures ParseInt(PrintInts(ns)[i]) == Some(ns[i])
      ensures PrintInts(ns)[i] != "" && Trim(PrintInts(ns)[i]) == PrintInts(ns)[i]
      ensures forall c :: c in PrintInts(ns)[i] ==> c == '-' || IsDigit(c)
    {
      ParseFormat(ns[i]);
      FormatIntChars(ns[i]);
      TrimTrimmed(PrintInts(ns)[i]);
    }
  }

  predicate Plain(c: char) { c == '-' || c == '.' || IsDigit(c) }

  /** Joined with a separator, texts hold their own characters and the separator only. */
  lemma {:induction false} JoinChars(parts: seq<string>, sep: char)
    requires forall i, c :: 0 <= i < |parts| && c in parts[i] ==> Plain(c)
    ensures forall c :: c in Join(parts, sep) ==> Plain(c) || c == sep
    ensures |parts| > 1 ==> sep in Join(parts, sep)
  {
    hide Plain;
    if |parts| > 1 { JoinChars(parts[1..], sep); }
  }

  lemma PlainTrimmed(s: string)
    requires forall c :: c in s ==> Plain(c) || c == ','
    ensures Trimmed(s) && ':' !in s
  {
    if s != [] { assert s[0] in s && s[|s| - 1] in s; }
  }

  lemma NumberHasNo(text: string)
    requires forall c :: c in text ==> c == '-' || IsDigit(c)
    ensures '.' !in text && ':' !in text
  {
    assert !IsDigit('.') && !IsDigit(':');
  }

  lemma PrintedEntry(row: seq<int>)
    requires Int64s(row) && |row| > 1
    ensures ParseEntry(PrintEntry(row), |row|) == Good(row)
    ensures forall c :: c in PrintEntry(row) ==> Plain(c)
    ensures '.' in PrintEntry(row)
  {
    hide Trim, ParseInt, SplitN, FormatInt, Join;
    var parts := PrintInts(row);
    PrintedInts(row);
    JoinChars(parts, '.');
    PlainTrimmed(PrintEntry(row));
    TrimTrimmed(PrintEntry(row));
    forall i | 0 <= i < |parts| ensures '.' !in parts[i] { NumberHasNo(parts[i]); }
    SplitNJoin(parts, '.');
  }

  lemma ParsePrinted(rows: seq<seq<int>>, arity: nat)
    requires arity > 1 && rows != []
    requires forall i :: 0 <= i < |rows| ==> |rows[i]| == arity && Int64s(rows[i])
    ensures var text := Join(PrintEntries(rows), ',');
            && |Entries(text, arity)| == |rows|
            && forall i :: 0 <= i < |rows| ==> Entries(text, arity)[i] == Good(rows[i])
  {
    hide ParseEntry, Split, Join, PrintEntry, Plain;
    var texts := PrintEntries(rows);
    forall i | 0 <= i < |rows| ensures ParseEntry(texts[i], arity) == Good(rows[i]) && ',' !in texts[i] {
      PrintedEntry(rows[i]);
      assert !Plain(',') by { PlainComma(); }
    }
    SplitJoin(texts, ',');
  }

  lemma PlainComma()
    ensures !Plain(',') && !Plain(':')
  {}

  lemma {:induction false} GoodValues(entries: seq<Entry>, rows: seq<seq<int>>, arity: nat)
    requires |entries| == |rows| && forall i :: 0 <= i < |rows| ==> entries[i] == Good(rows[i]) && |rows[i]| == arity
    ensures Values(entries, arity) == rows && Errors(entries) == []
    decreases |rows|
  {
    if rows != [] { GoodValues(entries[..|rows| - 1], rows[..|rows| - 1], arity); }
  }

  lemma EmptyEntries(arity: nat)
    ensures Values(Entries("", arity), arity) == [] && Errors(Entries("", arity)) == []
  {
    assert Split<char>("", ',') == [""];
    BlankEntry(Entries("", arity), arity);
  }

  lemma PrintedRows(rows: seq<seq<int>>, arity: nat, comma: bool)
    requires arity > 1 && forall i :: 0 <= i < |rows| ==> |rows[i]| == arity && Int64s(rows[i])
    ensures var entries := Entries(Join(PrintEntries(rows), ',') + if comma then "," else "", arity);
            Values(entries, arity) == rows && Errors(entries) == []
  {
    hide ParseEntry, Split, PrintEntry, Values, Errors, Entries;
    var text := Join(PrintEntries(rows), ',');
    if rows == [] {
      EmptyEntries(arity);
    } else {
      ParsePrinted(rows, arity);
      GoodValues(Entries(text, arity), rows, arity);
    }
    if comma {
      EntriesConcatenation(text, "", arity);
      EmptyEntries(arity);
      assert text + "," + "" == text + ",";
    } else {
      assert text + "" == text;
    }
  }

  lemma {:induction false} JoinEnds(parts: seq<string>, text: string)
    requires parts != []
    ensures Join(parts + [text], ':') == Join(parts, ':') + ":" + text
  {
    if |parts| > 1 {
      assert (parts + [text])[1..] == parts[1..] + [text];
      JoinEnds(parts[1..], text);
    } else {
      assert (parts + [text])[1..] == [text];
    }
  }

  lemma UploadTrimmed(uid: string, tokens: seq<string>, text: string)
    requires uid == "" || !IsSpace(uid[0])
    requires Trimmed(text)
    ensures Trim(Upload(uid, tokens, text)) == Upload(uid, tokens, text)
  {
    hide Trim;
    var s := Upload(uid, tokens, text);
    assert [uid] + tokens + [text] == [uid] + (tokens + [text]);
    JoinCons([uid] + (tokens + [text]));
    assert s[0] == if uid == "" then ':' else uid[0];
    JoinEnds([uid] + tokens, text);
    assert s[|s| - 1] == if text == "" then ':' else text[|text| - 1];
    TrimTrimmed(s);
  }

  lemma PrintedText(rows: seq<seq<int>>, comma: bool)
    requires forall i :: 0 <= i < |rows| ==> |rows[i]| > 1 && Int64s(rows[i])
    ensures var text := Join(PrintEntries(rows), ',') + if comma then "," else "";
            Trimmed(text) && StartsEvents(text)
  {
    hide ParseEntry, Split, PrintEntry, Trim, ParseInt, Plain;
    var texts := PrintEntries(rows);
    var text := Join(texts, ',') + if comma then "," else "";
    forall i | 0 <= i < |rows| ensures '.' in texts[i] && forall c :: c in texts[i] ==> Plain(c) {
      PrintedEntry(rows[i]);
    }
    JoinChars(texts, ',');
    PlainTrimmed(text);
    SplitWhole(text, ':');
    TrimTrimmed(text);
    if rows != [] {
      assert '.' in Join(texts, ',');
      NotAnInt(text, '.');
    } else if comma {
      NotAnInt(text, ',');
    } else {
      assert ParseInt(text) == None by { ParseNothing(); }
    }
  }

  lemma ParseNothing()
    ensures ParseInt("") == None
  {}

  /** Parsing what the firmware prints gives back the UID, the header and every event, and no errors:
      the text ends the header exactly where the integers end. */
  lemma RoundTrip(names: map<int, string>, uid: string, header: seq<int>, rows: seq<seq<int>>, comma: bool)
    requires ':' !in uid && (uid == "" || !IsSpace(uid[0])) && Int64s(header)
    requires forall i :: 0 <= i < |rows| ==> |rows[i]| == Arity(ReportType(header)) && Int64s(rows[i])
    ensures var p := Meaning(names, Print(uid, header, rows, comma));
            && p.uid == uid && p.header == header && p.reportType == ReportType(header) && p.parseErrors == []
            && (if Arity(ReportType(header)) == 5 then p.quintuples == Quintuples(names, rows) && p.events == []
                else p.events == Events(names, rows) && p.quintuples == [])
  {
    hide Trim, ParseInt, Split, PrintEntry, Entries, Values, Errors, StartsEvents, IsSpace, Trimmed, FormatInt, IsDigit;
    hide Distinct, Oldest, Newest;
    var text := Join(PrintEntries(rows), ',') + if comma then "," else "";
    PrintedText(rows, comma);
    PrintedInts(header);
    var tokens := PrintInts(header);
    UploadTrimmed(uid, tokens, text);
    PrintedHeader(header);
    MeaningOfUpload(names, uid, tokens, header, text);
    PrintedRows(rows, Arity(ReportType(header)), comma);
  }

  /** The seven numbers the firmware puts before the entries. */
  function FirmwareHeader(kind: int, named: NamedHeader): seq<int> {
    [kind, named.softwareVersion, named.field2, named.field3, named.field4, named.field5]
  }

  function EventRows(events: seq<Event>): (rows: seq<seq<int>>)
    ensures |rows| == |events|
    ensures forall i :: 0 <= i < |rows| ==> rows[i] == [events[i].code, events[i].ts, events[i].value]
  {
    seq(|events|, i requires 0 <= i < |events| => [events[i].code, events[i].ts, events[i].value])
  }

  function QuintupleRows(qs: seq<Quintuple>): (rows: seq<seq<int>>)
    ensures |rows| == |qs|
    ensures forall i :: 0 <= i < |rows| ==> rows[i] == [qs[i].code, qs[i].subB, qs[i].subC, qs[i].subD, qs[i].value]
  {
    seq(|qs|, i requires 0 <= i < |qs| => [qs[i].code, qs[i].subB, qs[i].subC, qs[i].subD, qs[i].value])
  }

  predicate Int64Rows(rows: seq<seq<int>>) { forall i :: 0 <= i < |rows| ==> Int64s(rows[i]) }

  lemma NamedOf(names: map<int, string>, raw: string)
    ensures Meaning(names, raw).named == Name(Meaning(names, raw).header)
    ensures Meaning(names, raw).reportType == ReportType(Meaning(names, raw).header)
  {
    hide Trim, Split, Header, Blob, Entries, Values, Errors, Distinct, Oldest, Newest;
  }

  /** A triple report, field by field: every number lands where the firmware meant it. */
  lemma TripleReport(names: map<int, string>, uid: string, kind: int, named: NamedHeader,
                     events: seq<Event>, comma: bool)
    requires ':' !in uid && (uid == "" || !IsSpace(uid[0])) && Int64s(FirmwareHeader(kind, named))
    requires kind != 1 && kind != 2
    requires Int64Rows(EventRows(events))
    requires forall i :: 0 <= i < |events| ==> events[i].name == CodeLabel(names, events[i].code)
    ensures var p := Meaning(names, Print(uid, FirmwareHeader(kind, named), EventRows(events), comma));
            && p.uid == uid && p.reportType == kind && p.named == named
            && p.events == events && p.quintuples == [] && p.parseErrors == []
  {
    hide Int64s, Meaning, Print, CodeLabel;
    var header := FirmwareHeader(kind, named);
    RoundTrip(names, uid, header, EventRows(events), comma);
    NamedOf(names, Print(uid, header, EventRows(events), comma));
    assert Events(names, EventRows(events)) == events;
  }

  /** A quintuple report, field by field. */
  lemma QuintupleReport(names: map<int, string>, uid: string, kind: int, named: NamedHeader,
                        qs: seq<Quintuple>, comma: bool)
    requires ':' !in uid && (uid == "" || !IsSpace(uid[0])) && Int64s(FirmwareHeader(kind, named))
    requires kind == 1 || kind == 2
    requires Int64Rows(QuintupleRows(qs))
    requires forall i :: 0 <= i < |qs| ==> qs[i].name == CodeLabel(names, qs[i].code)
    ensures var p := Meaning(names, Print(uid, FirmwareHeader(kind, named), QuintupleRows(qs), comma));
            && p.uid == uid && p.reportType == kind && p.named == named
            && p.quintuples == qs && p.events == [] && p.parseErrors == []
  {
    hide Int64s, Meaning, Print, CodeLabel;
    var header := FirmwareHeader(kind, named);
    RoundTrip(names, uid, header, QuintupleRows(qs), comma);
    NamedOf(names, Print(uid, header, QuintupleRows(qs), comma));
    assert Quintuples(names, QuintupleRows(qs)) == qs;
  }

  lemma PrintedHeader(header: seq<int>)
    requires Int64s(header)
    ensures IntTokens(PrintInts(header), header)
  {
    hide Trim, ParseInt, FormatInt;
    PrintedInts(header);
    var tokens := PrintInts(header);
    forall i | 0 <= i < |header| ensures ':' !in tokens[i] && ParseInt(Trim(tokens[i])) == Some(header[i]) {
      NumberHasNo(tokens[i]);
      assert Ints(tokens)[i] == header[i];
    }
  }

  // ---------------------------------------------------------------------------------------------
  // Entries appended to an upload

  lemma TokenPadded(token: string, pad: string, arity: nat)
    requires AllSpace(pad)
    ensures ParseEntry(token + pad, arity) == ParseEntry(token, arity)
  {
    hide Trim, ParseInt, SplitN;
    TrimPadded("", token, pad);
    assert "" + token + pad == token + pad;
  }

  lemma NoComma(pad: string)
    requires AllSpace(pad)
    ensures ',' !in pad
  {}

  lemma {:induction false} EntriesPadded(text: string, pad: string, arity: nat)
    requires AllSpace(pad)
    ensures Entries(text + pad, arity) == Entries(text, arity)
    decreases |text|
  {
    hide ParseEntry, AllSpace, Split;
    var i := IndexOf(text, ',');
    if i == |text| {
      NoComma(pad);
      SplitWhole(text, ',');
      SplitWhole(text + pad, ',');
      TokenPadded(text, pad, arity);
    } else {
      var a, b := text[..i], text[i + 1..];
      EntriesPadded(b, pad, arity);
      assert text == a + "," + b && text + pad == a + "," + (b + pad);
      EntriesConcatenation(a, b, arity);
      EntriesConcatenation(a, b + pad, arity);
    }
  }

  lemma {:induction false} FirstToken(text: string, more: string)
    ensures Split(text + more, ':')[0] ==
            if ':' in text then Split(text, ':')[0] else text + Split(more, ':')[0]
  {
    if text == [] {
      assert text + more == more;
    } else {
      assert (text + more)[1..] == text[1..] + more;
      FirstToken(text[1..], more);
      assert text == [text[0]] + text[1..];
    }
  }

  lemma StillEvents(text: string, more: string)
    requires StartsEvents(text) && ',' in Split(more, ':')[0]
    ensures StartsEvents(text + more)
  {
    hide ParseInt, Trim, Split;
    FirstToken(text, more);
    if ':' !in text {
      var token := text + Split(more, ':')[0];
      TrimKeepsText(token, ',');
      NotAnInt(Trim(token), ',');
    }
  }

  lemma CommaFirst(pad: string, b: string)
    requires AllSpace(pad)
    ensures ',' in Split(pad + "," + b, ':')[0]
  {
    assert ':' !in pad + ",";
    FirstToken(pad + ",", b);
  }

  lemma {:induction false} JoinNested(a: seq<string>, b: seq<string>)
    requires b != []
    ensures Join(a + [Join(b, ':')], ':') == Join(a + b, ':')
  {
    if a == [] {
      assert a + [Join(b, ':')] == [Join(b, ':')] && a + b == b;
    } else {
      assert (a + [Join(b, ':')])[1..] == a[1..] + [Join(b, ':')] && (a + b)[1..] == a[1..] + b;
      JoinNested(a[1..], b);
    }
  }

  lemma {:induction false} HeaderFacts(tokens: seq<string>)
    ensures var header := Header(tokens);
            && (forall i :: 0 <= i < |header| ==> ParseInt(Trim(tokens[i])) == Some(header[i]))
            && (|header| < |tokens| ==> ParseInt(Trim(tokens[|header|])).None?)
  {
    hide ParseInt, Trim;
    if tokens != [] && ParseInt(Trim(tokens[0])).Some? {
      HeaderFacts(tokens[1..]);
      var rest := Header(tokens[1..]);
      assert Header(tokens) == [ParseInt(Trim(tokens[0])).value] + rest;
    }
  }

  /** Every upload with a non-empty events text is a UID, integer tokens and that text. */
  lemma UploadShape(raw: string) returns (uid: string, tokens: seq<string>, header: seq<int>)
    requires EventsText(raw) != ""
    ensures Trim(raw) == Upload(uid, tokens, EventsText(raw)) && StartsEvents(EventsText(raw))
    ensures ':' !in uid && IntTokens(tokens, header)
  {
    hide ParseInt, Trim, Split, Join, Header;
    var all := Split(Trim(raw), ':');
    var n := |Header(all[1..])|;
    uid, header, tokens := all[0], Header(all[1..]), all[1..][..n];
    var rest := all[1..][n..];
    JoinSplit(Trim(raw), ':');
    HeaderFacts(all[1..]);
    assert rest != [] by { JoinNothing(); }
    assert [uid] + tokens + rest == all;
    JoinNested([uid] + tokens, rest);
    SplitJoin(rest, ':');
  }

  lemma UploadAppend(uid: string, tokens: seq<string>, text: string, more: string)
    ensures Upload(uid, tokens, text) + more == Upload(uid, tokens, text + more)
  {
    hide Join;
    JoinEnds([uid] + tokens, text);
    JoinEnds([uid] + tokens, text + more);
    var front := Join([uid] + tokens, ':') + ":";
    assert front + text + more == front + (text + more);
  }

  /** Trimming what follows a comma does not change the entries before or after it. */
  lemma AppendedEntries(text: string, pad: string, b: string, arity: nat) returns (more: string)
    requires AllSpace(pad)
    ensures more <= b && AllSpace(b[|more|..]) && (more == "" || !IsSpace(more[|more| - 1]))
    ensures Entries(text + (pad + "," + more), arity) == Entries(text, arity) + Entries(b, arity)
  {
    hide ParseEntry, Split, AllSpace, Entries, TrimRight;
    more := TrimRight(b);
    TrimRightDrops(b);
    TrimRightFacts(b);
    assert text + (pad + "," + more) == (text + pad) + "," + more;
    EntriesConcatenation(text + pad, more, arity);
    EntriesPadded(text, pad, arity);
    EntriesPadded(more, b[|more|..], arity);
  }

  lemma MeaningTrimmed(names: map<int, string>, raw: string, s: string)
    requires Trim(raw) == Trim(s)
    ensures Meaning(names, raw) == Meaning(names, s)
  {
    hide Trim, Split, Header, Report;
  }

  lemma MeaningSplit(names: map<int, string>, raw: string,
                     uid: string, tokens: seq<string>, header: seq<int>, text: string)
    requires Trim(raw) == Upload(uid, tokens, text)
    requires ':' !in uid && IntTokens(tokens, header) && StartsEvents(text)
    ensures Meaning(names, raw) == Report(names, uid, header, Entries(text, Arity(ReportType(header))))
  {
    hide Trim, Upload, Meaning, Report, Entries, IntTokens, StartsEvents;
    TrimFacts(raw);
    TrimTrimmed(Trim(raw));
    MeaningTrimmed(names, raw, Trim(raw));
    MeaningOfUpload(names, uid, tokens, header, text);
  }

  lemma ReportAppend(names: map<int, string>, uid: string, header: seq<int>, a: seq<Entry>, b: seq<Entry>)
    requires var arity := Arity(ReportType(header)); Sized(a, arity) && Sized(b, arity)
    ensures var arity := Arity(ReportType(header));
            var p, q := Report(names, uid, header, a), Report(names, uid, header, a + b);
            && q.parseErrors == p.parseErrors + Errors(b)
            && (if arity == 5 then q.quintuples == p.quintuples + Quintuples(names, Values(b, arity)) && q.events == []
                else q.events == p.events + Events(names, Values(b, arity)) && q.quintuples == [])
  {
    hide Values, Errors, Distinct, Oldest, Newest, CodeLabel;
    ValuesAppend(a, b, Arity(ReportType(header)));
  }

  lemma AppendedTrim(a: string, b: string, lead: string, pad: string, more: string)
    requires AllSpace(lead) && AllSpace(pad) && a == lead + Trim(a) + pad && Trim(a) != ""
    requires more <= b && AllSpace(b[|more|..]) && (more == "" || !IsSpace(more[|more| - 1]))
    ensures Trim(a + "," + b) == Trim(a) + (pad + "," + more)
  {
    hide Trim, AllSpace, IsSpace;
    var x := Trim(a) + (pad + "," + more);
    TrimPadded(lead, x, b[|more|..]);
    assert a + "," + b == lead + x + b[|more|..];
    TrimFacts(a);
    assert x[0] == Trim(a)[0];
    assert x[|x| - 1] == if more == "" then ',' else more[|more| - 1];
    assert !IsSpace(',') by { CommaNoSpace(); }
    TrimTrimmed(x);
  }

  lemma CommaNoSpace()
    ensures !IsSpace(',')
  {}

  /** Appending a comma and further entries to any upload with events leaves its UID and header alone
      and appends what those entries parse to, whatever white space stands around either part. */
  lemma AppendEntries(names: map<int, string>, a: string, b: string)
    requires EventsText(a) != ""
    ensures var p, q := Meaning(names, a), Meaning(names, a + "," + b);
            var arity := Arity(ReportType(p.header));
            var more := Entries(b, arity);
            && q.uid == p.uid && q.header == p.header && q.parseErrors == p.parseErrors + Errors(more)
            && (if arity == 5
                then q.quintuples == p.quintuples + Quintuples(names, Values(more, arity)) && q.events == []
                else q.events == p.events + Events(names, Values(more, arity)) && q.quintuples == [])
  {
    hide Trim, Upload, Meaning, Report, Entries, IntTokens, StartsEvents;
    hide AllSpace, IsSpace, Values, Errors, Split, Blob;
    var uid, tokens, header := UploadShape(a);
    var text, arity := EventsText(a), Arity(ReportType(header));
    var lead, pad := TrimShape(a);
    var more := AppendedEntries(text, pad, b, arity);
    var tail := pad + "," + more;
    assert Trim(a) != "" by { UploadNonEmpty(uid, tokens, text); }
    AppendedTrim(a, b, lead, pad, more);
    UploadAppend(uid, tokens, text, tail);
    CommaFirst(pad, more);
    StillEvents(text, tail);
    MeaningSplit(names, a, uid, tokens, header, text);
    MeaningSplit(names, a + "," + b, uid, tokens, header, text + tail);
    ReportFields(names, uid, header, Entries(text, arity));
    ReportFields(names, uid, header, Entries(text + tail, arity));
    ReportAppend(names, uid, header, Entries(text, arity), Entries(b, arity));
  }

  lemma ReportFields(names: map<int, string>, uid: string, header: seq<int>, entries: seq<Entry>)
    requires Sized(entries, Arity(ReportType(header)))
    ensures var p := Report(names, uid, header, entries); p.uid == uid && p.header == header
  {}

  // ---------------------------------------------------------------------------------------------
  // The summary fields

  function EventCodes(p: Parsed): seq<int> {
    seq(|p.events|, i requires 0 <= i < |p.events| => p.events[i].code) +
    seq(|p.quintuples|, i requires 0 <= i < |p.quintuples| => p.quintuples[i].code)
  }

  function EventValues(p: Parsed): seq<int> { seq(|p.events|, i requires 0 <= i < |p.events| => p.events[i].value) }

  function Stamps(p: Parsed): seq<int> { seq(|p.events|, i requires 0 <= i < |p.events| => p.events[i].ts) }

  lemma Summary(names: map<int, string>, uid: string, header: seq<int>, entries: seq<Entry>)
    requires Sized(entries, Arity(ReportType(header)))
    ensures var p := Report(names, uid, header, entries);
            && p.distinctCodes == Distinct(EventCodes(p)) && p.distinctValues == Distinct(EventValues(p))
            && p.oldestTS == Oldest(0, Stamps(p)) && p.newestTS == Newest(0, Stamps(p))
  {
    hide Values, Errors, Distinct, CodeLabel, Oldest, Newest;
    var arity := Arity(ReportType(header));
    var vs := Values(entries, arity);
    var p := Report(names, uid, header, entries);
    assert EventCodes(p) == Column(vs, 0);
    if arity == 5 {
      assert EventValues(p) == [] && Stamps(p) == [];
      NothingToSummarise();
    } else {
      assert EventValues(p) == Column(vs, 2) && Stamps(p) == Column(vs, 1);
    }
  }

  lemma NothingToSummarise()
    ensures Distinct([]) == [] && Oldest(0, []) == 0 && Newest(0, []) == 0
  {}

  /** The distinct lists are strictly increasing and hold exactly the codes and values parsed. */
  lemma DistinctLists(names: map<int, string>, raw: string)
    ensures var p := Meaning(names, raw);
            && Ascending(p.distinctCodes) && (forall c :: c in p.distinctCodes <==> c in EventCodes(p))
            && Ascending(p.distinctValues) && (forall v :: v in p.distinctValues <==> v in EventValues(p))
  {
    hide Trim, Split, Report, Entries, Header, Blob, Distinct;
    var p := Meaning(names, raw);
    SummaryOf(names, raw);
    DistinctFacts(EventCodes(p));
    DistinctFacts(EventValues(p));
  }

  lemma SummaryOf(names: map<int, string>, raw: string)
    ensures var p := Meaning(names, raw);
            && p.distinctCodes == Distinct(EventCodes(p)) && p.distinctValues == Distinct(EventValues(p))
            && p.oldestTS == Oldest(0, Stamps(p)) && p.newestTS == Newest(0, Stamps(p))
  {
    hide Split, Report, Entries, Header, Blob, Trim, Distinct, Oldest, Newest;
    var s := Trim(raw);
    if s == "" {
      var p := Meaning(names, raw);
      assert EventCodes(p) == [] && EventValues(p) == [] && Stamps(p) == [];
      NothingToSummarise();
    } else {
      var header := Header(Split(s, ':')[1..]);
      Summary(names, Split(s, ':')[0], header, Entries(Blob(Split(s, ':')[1..]), Arity(ReportType(header))));
    }
  }

  /** The oldest time stamp reported is the least one if and only if that is not 0 or comes last; the
      newest reported is the greatest one if and only if that is not negative. */
  lemma TimeStamps(names: map<int, string>, raw: string, least: int, greatest: int)
    requires var stamps := Stamps(Meaning(names, raw)); IsMin(least, stamps) && IsMax(greatest, stamps)
    ensures var p := Meaning(names, raw);
            && (p.oldestTS == least <==> least != 0 || Stamps(p)[|Stamps(p)| - 1] == 0)
            && (p.newestTS == greatest <==> greatest >= 0)
  {
    hide Meaning, Oldest, Newest;
    SummaryOf(names, raw);
    OldestExact(Stamps(Meaning(names, raw)), least);
    NewestExact(Stamps(Meaning(names, raw)), greatest);
  }

  /** In particular both are right when every time stamp is positive. */
  lemma PositiveTimeStamps(names: map<int, string>, raw: string)
    requires var stamps := Stamps(Meaning(names, raw)); stamps != [] && forall t :: t in stamps ==> t > 0
    ensures var p := Meaning(names, raw); IsMin(p.oldestTS, Stamps(p)) && IsMax(p.newestTS, Stamps(p))
  {
    hide Meaning, Oldest, Newest;
    var stamps := Stamps(Meaning(names, raw));
    SummaryOf(names, raw);
    LeastIsMin(stamps);
    OldestExact(stamps, LeastOf(stamps));
    NewestBounds(0, stamps);
    assert stamps[0] in stamps;
  }

  /** A concrete upload on which both go wrong: stamps 0 and 5 are reported as oldest 5, and a single
      stamp -1 as newest 0. */
  lemma TimeStampsCanMislead(names: map<int, string>)
    ensures var p := Meaning(names, Print("u", [0], [[1, 0, 1], [1, 5, 1]], false));
            Stamps(p) == [0, 5] && p.oldestTS == 5
    ensures var p := Meaning(names, Print("u", [0], [[1, -1, 1]], false));
            Stamps(p) == [-1] && p.newestTS == 0
  {
    hide Meaning, Print, IsInt64, CodeLabel;
    assert IsInt64(0) && IsInt64(1) && IsInt64(5) && IsInt64(-1) by { SmallInts(); }
    assert !IsSpace('u');
    RoundTrip(names, "u", [0], [[1, 0, 1], [1, 5, 1]], false);
    SummaryOf(names, Print("u", [0], [[1, 0, 1], [1, 5, 1]], false));
    assert Stamps(Meaning(names, Print("u", [0], [[1, 0, 1], [1, 5, 1]], false))) == [0, 5];
    assert [0, 5][..1] == [0] && Oldest(0, [0]) == 0;
    assert Oldest(0, [0, 5]) == 5;
    RoundTrip(names, "u", [0], [[1, -1, 1]], false);
    SummaryOf(names, Print("u", [0], [[1, -1, 1]], false));
    assert Stamps(Meaning(names, Print("u", [0], [[1, -1, 1]], false))) == [-1];
    assert Newest(0, [-1]) == 0;
  }

  lemma SmallInts()
    ensures IsInt64(0) && IsInt64(1) && IsInt64(5) && IsInt64(-1)
  {}
}
