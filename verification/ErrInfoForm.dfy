/** What the text of a puterrinfo upload says, token by token and entry by entry, well formed or not. */
module ErrInfoForm {
  import opened Options
  import opened Text
  import opened ErrInfoCodes
  import opened ErrInfo
  import opened ErrInfoLaws

  // ---------------------------------------------------------------------------------------------
  // The header

  lemma MeaningHeader(names: map<int, string>, raw: string)
    requires Trim(raw) != ""
    ensures var p, tokens := Meaning(names, raw), Split(Trim(raw), ':');
            p.uid == tokens[0] && p.header == Header(tokens[1..])
  {
    hide Trim, Split, Header, Blob, Entries, Values, Errors, Distinct, Oldest, Newest;
  }

  /** The UID is the first colon-separated token.  The header is the longest run of integer tokens after
      it, also when nothing follows; its first number is the report type, and the next five are named as
      far as they are there. */
  lemma HeaderExact(names: map<int, string>, raw: string)
    requires Trim(raw) != ""
    ensures var p, tokens := Meaning(names, raw), Split(Trim(raw), ':');
            var h := p.header;
            && p.uid == tokens[0] && |h| < |tokens|
            && (forall i :: 0 <= i < |h| ==> ParseInt(Trim(tokens[i + 1])) == Some(h[i]))
            && (|h| + 1 < |tokens| ==> ParseInt(Trim(tokens[|h| + 1])).None?)
            && p.reportType == (if |h| >= 1 then h[0] else -1)
            && p.named == (if |h| >= 6 then NamedHeader(h[1], h[2], h[3], h[4], h[5])
                           else if |h| >= 2 then NamedHeader(h[1], 0, 0, 0, 0)
                           else NamedHeader(0, 0, 0, 0, 0))
  {
    hide Trim, Split, Header, Meaning, ParseInt;
    MeaningHeader(names, raw);
    HeaderFacts(Split(Trim(raw), ':')[1..]);
    NamedOf(names, raw);
  }

  /** A blank body is an error and nothing else. */
  lemma BlankUpload(names: map<int, string>, raw: string)
    requires AllSpace(raw)
    ensures Meaning(names, raw) ==
            Parsed("", -1, [], NamedHeader(0, 0, 0, 0, 0), [], [], [], [], 0, 0, [EmptyBody])
  {
    TrimLeftBlank(raw);
  }

  lemma BareTrimmed(uid: string, tokens: seq<string>)
    requires uid == "" || !IsSpace(uid[0])
    requires tokens == [] ==> uid != "" && Trimmed(uid)
    requires tokens != [] ==> tokens[|tokens| - 1] != "" && Trimmed(tokens[|tokens| - 1])
    ensures var s := Join([uid] + tokens, ':'); s != "" && Trim(s) == s
  {
    hide Trim, IsSpace;
    var s := Join([uid] + tokens, ':');
    if tokens == [] {
      assert [uid] + tokens == [uid];
      TrimTrimmed(uid);
    } else {
      var front, last := tokens[..|tokens| - 1], tokens[|tokens| - 1];
      assert [uid] + tokens == ([uid] + front) + [last];
      JoinEnds([uid] + front, last);
      JoinCons([uid] + tokens);
      assert s[0] == if uid == "" then ':' else uid[0];
      assert s[|s| - 1] == last[|last| - 1];
      assert !IsSpace(':') by { ColonNoSpace(); }
      TrimTrimmed(s);
    }
  }

  lemma ColonNoSpace()
    ensures !IsSpace(':')
  {}

  /** An upload that ends with its header: UID and numbers come back, and there are no events. */
  lemma BareHeader(names: map<int, string>, uid: string, header: seq<int>)
    requires ':' !in uid && (uid == "" || !IsSpace(uid[0])) && Int64s(header)
    requires header == [] ==> uid != "" && Trimmed(uid)
    ensures Meaning(names, Join([uid] + PrintInts(header), ':')) ==
            Parsed(uid, ReportType(header), header, Name(header), [], [], [], [], 0, 0, [])
  {
    hide Trim, Split, ParseInt, IsSpace, FormatInt, Report, ReportType, Name;
    var tokens := PrintInts(header);
    PrintedInts(header);
    if header != [] { PrintedTrimmed(header, |header| - 1); }
    BareTrimmed(uid, tokens);
    PrintedHeader(header);
    SplitJoin([uid] + tokens, ':');
    assert ([uid] + tokens)[1..] == tokens;
    HeaderIs(tokens, header);
    assert tokens[|header|..] == [];
    JoinNothing();
    EmptyReport(names, uid, header);
  }

  lemma PrintedTrimmed(ns: seq<int>, i: nat)
    requires i < |ns|
    ensures PrintInts(ns)[i] != "" && Trimmed(PrintInts(ns)[i])
  {
    FormatIntChars(ns[i]);
  }

  // ---------------------------------------------------------------------------------------------
  // Entries

  function Count(s: string, c: char): nat {
    if s == "" then 0 else (if s[0] == c then 1 else 0) + Count(s[1..], c)
  }

  lemma {:induction false} CountAppend(a: string, b: string, c: char)
    ensures Count(a + b, c) == Count(a, c) + Count(b, c)
  {
    if a == "" {
      assert a + b == b;
    } else {
      assert (a + b)[1..] == a[1..] + b;
      CountAppend(a[1..], b, c);
    }
  }

  lemma {:induction false} CountNone(s: string, c: char)
    requires c !in s
    ensures Count(s, c) == 0
  {
    if s != "" { CountNone(s[1..], c); }
  }

  /** SplitN cuts at the first n - 1 separators, as far as there are that many. */
  lemma {:induction false} SplitNFacts(s: string, sep: char, n: nat)
    requires n >= 1
    ensures var parts := SplitN(s, sep, n);
            && Join(parts, sep) == s
            && (forall i :: 0 <= i < |parts| - 1 ==> sep !in parts[i])
            && |parts| == if Count(s, sep) + 1 < n then Count(s, sep) + 1 else n
  {
    hide Join, Count, SplitN;
    SplitNCuts(s, sep, n);
    if sep !in s || n == 1 {
      if sep !in s { CountNone(s, sep); }
      JoinOne(s, sep);
    } else {
      var i := IndexOf(s, sep);
      var head, tail := s[..i], s[i + 1..];
      SplitNFacts(tail, sep, n - 1);
      CountCut(head, tail, sep);
      JoinFirst(head, SplitN(tail, sep, n - 1), sep);
      assert s == head + [sep] + tail;
    }
  }

  lemma JoinOne(s: string, sep: char)
    ensures Join([s], sep) == s
  {}

  lemma JoinFirst(head: string, rest: seq<string>, sep: char)
    requires rest != []
    ensures Join([head] + rest, sep) == head + [sep] + Join(rest, sep)
  {
    assert ([head] + rest)[1..] == rest;
  }

  lemma CountCut(head: string, tail: string, sep: char)
    requires sep !in head
    ensures Count(head + [sep] + tail, sep) == 1 + Count(tail, sep)
  {
    CountNone(head, sep);
    CountAppend(head, [sep] + tail, sep);
    assert head + [sep] + tail == head + ([sep] + tail);
    assert ([sep] + tail)[1..] == tail;
  }

  /** An entry is skipped if it is blank.  It is good exactly if it is `arity` integers with dots between
      them.  With too few dots it is an error of one kind, otherwise of the other, and either error
      carries the trimmed entry. */
  lemma EntryExact(raw: string, arity: nat, values: seq<int>)
    requires arity >= 2
    ensures var e, text := ParseEntry(raw, arity), Trim(raw);
            && (e.Blank? <==> text == "")
            && (e == Good(values) <==>
                  |values| == arity && exists parts ::
                    |parts| == arity && text == Join(parts, '.')
                    && forall i :: 0 <= i < arity ==> ParseInt(parts[i]) == Some(values[i]))
            && (e.Bad? ==>
                  e.error == if Count(text, '.') + 1 < arity then BadParts(arity, text) else BadField(arity, text))
            && (text != "" && Count(text, '.') + 1 < arity ==> e.Bad?)
  {
    hide Trim, ParseInt, SplitN, Join, Count;
    var e, text := ParseEntry(raw, arity), Trim(raw);
    SplitNFacts(text, '.', arity);
    var parts := SplitN(text, '.', arity);
    if e == Good(values) {
      assert |parts| == arity && text == Join(parts, '.');
      assert forall i :: 0 <= i < arity ==> ParseInt(parts[i]) == Some(Ints(parts)[i]);
    }
    if |values| == arity && exists ps ::
         |ps| == arity && text == Join(ps, '.') && forall i :: 0 <= i < arity ==> ParseInt(ps[i]) == Some(values[i])
    {
      var ps :| |ps| == arity && text == Join(ps, '.')
        && forall i :: 0 <= i < arity ==> ParseInt(ps[i]) == Some(values[i]);
      GoodEntry(raw, ps, values);
    }
  }

  lemma GoodEntry(raw: string, parts: seq<string>, values: seq<int>)
    requires |parts| == |values| >= 2 && Trim(raw) == Join(parts, '.')
    requires forall i :: 0 <= i < |parts| ==> ParseInt(parts[i]) == Some(values[i])
    ensures ParseEntry(raw, |parts|) == Good(values)
  {
    hide Trim, ParseInt, SplitN;
    forall i | 0 <= i < |parts| ensures '.' !in parts[i] {
      if '.' in parts[i] { NotAnInt(parts[i], '.'); }
    }
    SplitNJoin(parts, '.');
    assert Join(parts, '.') != "" by { assert |parts| > 1; }
    assert Ints(parts) == values;
  }

  /** Good entries give values, bad ones errors, blank ones nothing, one by one and in their order. */
  lemma EntriesFilter(a: seq<Entry>, b: seq<Entry>, e: Entry, arity: nat)
    requires Sized(a, arity) && Sized(b, arity) && Sized([e], arity)
    ensures Values(a + b, arity) == Values(a, arity) + Values(b, arity) && Errors(a + b) == Errors(a) + Errors(b)
    ensures Values([e], arity) == if e.Good? then [e.values] else []
    ensures Errors([e]) == if e.Bad? then [e.error] else []
  {
    ValuesAppend(a, b, arity);
    assert [e][..0] == [];
    assert Values([e][..0], arity) == [] && Errors([e][..0]) == [];
  }

  // ---------------------------------------------------------------------------------------------
  // Names

  predicate Int64Entries(entries: seq<Entry>) {
    forall i :: 0 <= i < |entries| && entries[i].Good? ==> Int64s(entries[i].values)
  }

  lemma ParsedInt64(s: string)
    requires ParseInt(s).Some?
    ensures IsInt64(ParseInt(s).value)
  {}

  lemma EntryInt64(raw: string, arity: nat)
    ensures var e := ParseEntry(raw, arity); e.Good? ==> Int64s(e.values)
  {
    hide Trim, ParseInt, SplitN, IsInt64;
    var parts := SplitN(Trim(raw), '.', arity);
    if AllInts(parts) {
      forall i | 0 <= i < |parts| ensures IsInt64(Ints(parts)[i]) { ParsedInt64(parts[i]); }
    }
  }

  lemma {:induction false} ValuesInt64(entries: seq<Entry>, arity: nat)
    requires Sized(entries, arity) && Int64Entries(entries)
    ensures forall i :: 0 <= i < |Values(entries, arity)| ==> Int64s(Values(entries, arity)[i])
  {
    hide Int64s;
    if entries != [] { ValuesInt64(entries[..|entries| - 1], arity); }
  }

  /** The name a code goes by: the dictionary's, or its number in decimal behind "unknown_". */
  ghost predicate Named(names: map<int, string>, code: int, name: string) {
    if code in names then name == names[code]
    else |name| > 8 && name[..8] == "unknown_" && ParseInt(name[8..]) == Some(code)
  }

  lemma LabelNames(names: map<int, string>, code: int)
    requires IsInt64(code)
    ensures Named(names, code, CodeLabel(names, code))
  {
    hide ParseInt, FormatInt;
    ParseFormat(code);
    FormatIntChars(code);
    var name := CodeLabel(names, code);
    assert code !in names ==> name[..8] == "unknown_" && name[8..] == FormatInt(code);
  }

  lemma ReportNames(names: map<int, string>, uid: string, header: seq<int>, entries: seq<Entry>)
    requires Sized(entries, Arity(ReportType(header))) && Int64Entries(entries)
    ensures var p := Report(names, uid, header, entries);
            && (forall i :: 0 <= i < |p.events| ==> Named(names, p.events[i].code, p.events[i].name))
            && (forall i :: 0 <= i < |p.quintuples| ==> Named(names, p.quintuples[i].code, p.quintuples[i].name))
  {
    hide Values, Errors, Distinct, Oldest, Newest, CodeLabel, Named;
    var vs := Values(entries, Arity(ReportType(header)));
    ValuesInt64(entries, Arity(ReportType(header)));
    forall i | 0 <= i < |vs| ensures Named(names, vs[i][0], CodeLabel(names, vs[i][0])) {
      assert Int64s(vs[i]);
      LabelNames(names, vs[i][0]);
    }
  }

  /** Every event and quintuple of every upload carries the name its code goes by. */
  lemma EventNames(names: map<int, string>, raw: string)
    ensures var p := Meaning(names, raw);
            && (forall i :: 0 <= i < |p.events| ==> Named(names, p.events[i].code, p.events[i].name))
            && (forall i :: 0 <= i < |p.quintuples| ==> Named(names, p.quintuples[i].code, p.quintuples[i].name))
  {
    hide Trim, Split, Header, Blob, Report, ParseEntry, Named, Int64s;
    if Trim(raw) != "" {
      var tokens := Split(Trim(raw), ':');
      var header := Header(tokens[1..]);
      var arity := Arity(ReportType(header));
      var texts := Split(Blob(tokens[1..]), ',');
      forall i | 0 <= i < |texts| ensures var e := ParseEntry(texts[i], arity); e.Good? ==> Int64s(e.values) {
        EntryInt64(texts[i], arity);
      }
      ReportNames(names, tokens[0], header, Entries(Blob(tokens[1..]), arity));
    }
  }
}
