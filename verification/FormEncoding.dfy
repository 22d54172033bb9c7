/** application/x-www-form-urlencoded: urlencode on the sending side (scripts/encrypt_report.py),
url.ParseQuery and ParseReport on the receiving side (emulator/report.go).  Keys and values are the
bytes of their UTF-8 encodings. */
module FormEncoding {
  import opened Options
  import opened Text
  import opened Base64Url

  type Bytes = seq<byte>

  type Pair = (Bytes, Bytes)

  const AMPERSAND: byte := 38
  const SEMICOLON: byte := 59
  const EQUALS: byte := 61
  const PERCENT: byte := 37
  const PLUS: byte := 43
  const SPACE: byte := 32

  // ---------------------------------------------------------------------------------------------
  // Sending

  predicate Unreserved(b: byte) {
    48 <= b <= 57 || 65 <= b <= 90 || 97 <= b <= 122 || b == 95 || b == 46 || b == 45 || b == 126
  }

  function HexDigit(n: nat): byte
    requires n < 16
  {
    if n < 10 then (48 + n) as byte else (55 + n) as byte
  }

  function QuoteByte(b: byte): Bytes {
    if Unreserved(b) then [b]
    else if b == SPACE then [PLUS]
    else [PERCENT, HexDigit(b as nat / 16), HexDigit(b as nat % 16)]
  }

  function Quote(s: Bytes): Bytes {
    if s == [] then [] else QuoteByte(s[0]) + Quote(s[1..])
  }

  function Field(p: Pair): Bytes { Quote(p.0) + [EQUALS] + Quote(p.1) }

  function FormEncode(pairs: seq<Pair>): Bytes { Join(MapSeq(Field, pairs), AMPERSAND) }

  /** The arguments KEY=VALUE of encrypt_report.py, split at the first '='; one without any is fatal. */
  method ReadArguments(args: seq<Bytes>) returns (pairs: Option<seq<Pair>>)
    ensures pairs.Some? <==> forall i :: 0 <= i < |args| ==> EQUALS in args[i]
    ensures pairs.Some? ==> |pairs.value| == |args|
    ensures pairs.Some? ==> forall i :: 0 <= i < |args| ==>
              EQUALS !in pairs.value[i].0 && args[i] == pairs.value[i].0 + [EQUALS] + pairs.value[i].1
  {
    var list: seq<Pair> := [];
    for n := 0 to |args|
      invariant |list| == n
      invariant forall i :: 0 <= i < n ==>
                  EQUALS in args[i] && EQUALS !in list[i].0 && args[i] == list[i].0 + [EQUALS] + list[i].1
    {
      var arg := args[n];
      if EQUALS !in arg { return None; }
      var k := IndexOf(arg, EQUALS);
      list := list + [(arg[..k], arg[k + 1..])];
      assert arg == arg[..k] + [EQUALS] + arg[k + 1..];
    }
    return Some(list);
  }

  const UPPER_HEX := "0123456789ABCDEF"
  const LOWER_HEX := "0123456789abcdef"

  lemma UpperHex(n: nat)
    requires n < 16
    ensures HexDigit(n) as int == UPPER_HEX[n] as int
  {}

  /** Letters, digits and four marks stay, a space becomes a plus sign, everything else a percent sign and
      two digits in upper case. */
  lemma QuoteExact(b: byte)
    ensures var c := b as int;
            var stays := 'A' as int <= c <= 'Z' as int || 'a' as int <= c <= 'z' as int || '0' as int <= c <= '9' as int
              || c == '_' as int || c == '.' as int || c == '-' as int || c == '~' as int;
            && (stays ==> QuoteByte(b) == [b])
            && (c == ' ' as int ==> |QuoteByte(b)| == 1 && QuoteByte(b)[0] as int == '+' as int)
            && (!stays && c != ' ' as int ==>
                  && |QuoteByte(b)| == 3 && QuoteByte(b)[0] as int == '%' as int
                  && QuoteByte(b)[1] as int == UPPER_HEX[c / 16] as int
                  && QuoteByte(b)[2] as int == UPPER_HEX[c % 16] as int)
  {
    hide HexDigit;
    UpperHex(b as nat / 16);
    UpperHex(b as nat % 16);
  }

  // ---------------------------------------------------------------------------------------------
  // Receiving

  function Unhex(b: byte): Option<nat> {
    if 48 <= b <= 57 then Some(b as nat - 48)
    else if 65 <= b <= 70 then Some(b as nat - 55)
    else if 97 <= b <= 102 then Some(b as nat - 87)
    else None
  }

  /** url.QueryUnescape. */
  function Unescape(s: Bytes): Option<Bytes> {
    if s == [] then Some([])
    else if s[0] == PERCENT then
      if |s| < 3 || Unhex(s[1]).None? || Unhex(s[2]).None? then None
      else Then([(Unhex(s[1]).value * 16 + Unhex(s[2]).value) as byte], Unescape(s[3..]))
    else Then([if s[0] == PLUS then SPACE else s[0]], Unescape(s[1..]))
  }

  datatype Segment = Skipped | Malformed | Parsed(pair: Pair)

  /** One '&'-separated segment of the query. */
  function ParseSegment(s: Bytes): Segment {
    if SEMICOLON in s then Malformed
    else if s == [] then Skipped
    else
      var i := IndexOf(s, EQUALS);
      var key, value := Unescape(s[..i]), Unescape(if i < |s| then s[i + 1..] else []);
      if key.None? || value.None? then Malformed else Parsed((key.value, value.value))
  }

  function Pairs(segments: seq<Segment>): seq<Pair> {
    if segments == [] then []
    else
      var last := segments[|segments| - 1];
      Pairs(segments[..|segments| - 1]) + if last.Parsed? then [last.pair] else []
  }

  /** url.ParseQuery as a list of pairs; any malformed segment makes the whole query an error. */
  function ParseQuery(query: Bytes): Option<seq<Pair>> {
    var segments := MapSeq(ParseSegment, Split(query, AMPERSAND));
    if Malformed in segments then None else Some(Pairs(segments))
  }

  /** All values of each key, in order: what url.ParseQuery hands out. */
  function Grouped(pairs: seq<Pair>): map<Bytes, seq<Bytes>> {
    if pairs == [] then map[]
    else
      var g := Grouped(pairs[..|pairs| - 1]);
      var (k, v) := pairs[|pairs| - 1];
      g[k := (if k in g then g[k] else []) + [v]]
  }

  /** The first value of each key. */
  function FirstValues(pairs: seq<Pair>): map<Bytes, Bytes> {
    if pairs == [] then map[] else FirstValues(pairs[1..])[pairs[0].0 := pairs[0].1]
  }

  /** ParseReport: the first value of every key, the keys taken in whatever order the map yields them. */
  method ParseReport(plaintext: Bytes) returns (m: Option<map<Bytes, Bytes>>)
    ensures var pairs := ParseQuery(plaintext);
            m == if pairs.Some? then Some(FirstValues(pairs.value)) else None
  {
    hide ParseQuery;
    var pairs := ParseQuery(plaintext);
    if pairs.None? { return None; }
    var vals := Grouped(pairs.value);
    GroupedFirst(pairs.value);
    var result: map<Bytes, Bytes> := map[];
    var rest := vals.Keys;
    while rest != {}
      invariant rest <= vals.Keys && result.Keys == vals.Keys - rest
      invariant forall k :: k in result ==> result[k] == FirstValues(pairs.value)[k]
      decreases |rest|
    {
      assert rest != {} ==> exists k :: k in rest by { assert (forall k :: k !in rest) ==> rest == {}; }
      var k :| k in rest;
      if |vals[k]| > 0 { result := result[k := vals[k][0]]; }
      rest := rest - {k};
    }
    assert result == FirstValues(pairs.value);
    return Some(result);
  }

  lemma {:induction false} FirstValuesSnoc(pairs: seq<Pair>, p: Pair)
    ensures FirstValues(pairs + [p]) ==
            if p.0 in FirstValues(pairs) then FirstValues(pairs) else FirstValues(pairs)[p.0 := p.1]
  {
    if pairs == [] {
      assert [p][1..] == [] && pairs + [p] == [p];
    } else {
      assert (pairs + [p])[1..] == pairs[1..] + [p];
      FirstValuesSnoc(pairs[1..], p);
    }
  }

  lemma {:induction false} GroupedFirst(pairs: seq<Pair>)
    ensures Grouped(pairs).Keys == FirstValues(pairs).Keys
    ensures forall k :: k in Grouped(pairs) ==> |Grouped(pairs)[k]| > 0 && Grouped(pairs)[k][0] == FirstValues(pairs)[k]
    decreases |pairs|
  {
    if pairs != [] {
      var front, last := pairs[..|pairs| - 1], pairs[|pairs| - 1];
      GroupedFirst(front);
      FirstValuesSnoc(front, last);
      assert pairs == front + [last];
    }
  }

  /** A key's value is that of its first pair. */
  lemma {:induction false} FirstWins(pairs: seq<Pair>, k: Bytes) returns (i: nat)
    ensures k in FirstValues(pairs) <==> i < |pairs|
    ensures i <= |pairs| && forall j :: 0 <= j < i ==> pairs[j].0 != k
    ensures i < |pairs| ==> pairs[i].0 == k && FirstValues(pairs)[k] == pairs[i].1
  {
    if pairs == [] || pairs[0].0 == k { return 0; }
    var n := FirstWins(pairs[1..], k);
    i := n + 1;
  }

  // ---------------------------------------------------------------------------------------------
  // Round trip

  lemma UnhexDigit(n: nat)
    requires n < 16
    ensures Unhex(HexDigit(n)) == Some(n)
  {}

  lemma UnescapeByte(b: byte, rest: Bytes)
    ensures Unescape(QuoteByte(b) + rest) == Then([b], Unescape(rest))
  {
    hide HexDigit, Unhex;
    var s := QuoteByte(b) + rest;
    if Unreserved(b) || b == SPACE {
      assert s[1..] == rest;
    } else {
      UnhexDigit(b as nat / 16);
      UnhexDigit(b as nat % 16);
      assert s[3..] == rest;
    }
  }

  lemma UnescapeNothing()
    ensures Quote([]) == [] && Unescape([]) == Some([])
  {}

  lemma {:induction false} UnescapeQuote(s: Bytes)
    ensures Unescape(Quote(s)) == Some(s)
  {
    hide QuoteByte, Unescape;
    if s == [] {
      UnescapeNothing();
    } else {
      UnescapeQuote(s[1..]);
      UnescapeByte(s[0], Quote(s[1..]));
      assert s == [s[0]] + s[1..];
    }
  }

  predicate Separator(b: byte) { b == AMPERSAND || b == SEMICOLON || b == EQUALS }

  lemma QuoteByteSafe(b: byte)
    ensures forall c :: c in QuoteByte(b) ==> !Separator(c)
  {}

  lemma {:induction false} QuoteSafe(s: Bytes)
    ensures forall c :: c in Quote(s) ==> !Separator(c)
  {
    hide QuoteByte, Separator;
    if s != [] {
      QuoteByteSafe(s[0]);
      QuoteSafe(s[1..]);
    }
  }

  lemma FieldParses(p: Pair)
    ensures ParseSegment(Field(p)) == Parsed(p)
    ensures AMPERSAND !in Field(p)
  {
    hide Quote, Unescape;
    QuoteSafe(p.0);
    QuoteSafe(p.1);
    var k, v := Quote(p.0), Quote(p.1);
    var s := Field(p);
    assert SEMICOLON !in k && SEMICOLON !in v && EQUALS !in k && AMPERSAND !in k && AMPERSAND !in v;
    IndexOfAt(k, EQUALS, v);
    assert s[..|k|] == k && s[|k| + 1..] == v;
    UnescapeQuote(p.0);
    UnescapeQuote(p.1);
  }

  lemma {:induction false} AllParsed(segments: seq<Segment>, pairs: seq<Pair>)
    requires |segments| == |pairs| && forall i :: 0 <= i < |pairs| ==> segments[i] == Parsed(pairs[i])
    ensures Malformed !in segments && Pairs(segments) == pairs
    decreases |pairs|
  {
    if pairs != [] { AllParsed(segments[..|segments| - 1], pairs[..|pairs| - 1]); }
  }

  /** Parsing what urlencode writes gives the pairs back: any bytes, empty keys and values included. */
  lemma ParseEncode(pairs: seq<Pair>)
    ensures ParseQuery(FormEncode(pairs)) == Some(pairs)
  {
    hide ParseSegment, Split, Field, Join;
    var fields := MapSeq(Field, pairs);
    if pairs == [] {
      EmptyQuery();
    } else {
      forall i | 0 <= i < |pairs| ensures ParseSegment(fields[i]) == Parsed(pairs[i]) && AMPERSAND !in fields[i] {
        FieldParses(pairs[i]);
      }
      SplitJoin(fields, AMPERSAND);
      AllParsed(MapSeq(ParseSegment, fields), pairs);
    }
  }

  lemma EmptyQuery()
    ensures ParseQuery([]) == Some([]) && FormEncode([]) == []
  {
    hide Unescape;
    var none: Bytes := [];
    assert Split(none, AMPERSAND) == [none] && ParseSegment(none) == Skipped;
    NothingParsed(MapSeq(ParseSegment, [none]));
    assert MapSeq(Field, []) == [];
  }

  lemma NothingParsed(segments: seq<Segment>)
    requires segments == [Skipped]
    ensures Malformed !in segments && Pairs(segments) == []
  {
    assert segments[..0] == [];
    assert Pairs(segments[..0]) == [];
  }

  // ---------------------------------------------------------------------------------------------
  // Any query, malformed ones included

  /** A byte stands for a hexadecimal digit exactly if it is that digit in upper or lower case. */
  lemma UnhexExact(b: byte, n: nat)
    requires n < 16
    ensures Unhex(b) == Some(n) <==> b as int == UPPER_HEX[n] as int || b as int == LOWER_HEX[n] as int
    ensures Unhex(b).Some? ==> Unhex(b).value < 16
  {}

  predicate Hex(b: byte) {
    exists n :: 0 <= n < 16 && (b as int == UPPER_HEX[n] as int || b as int == LOWER_HEX[n] as int)
  }

  lemma HexDigits(b: byte)
    ensures Hex(b) <==> Unhex(b).Some?
  {
    if Unhex(b).Some? { UnhexExact(b, Unhex(b).value); }
    if n :| 0 <= n < 16 && (b as int == UPPER_HEX[n] as int || b as int == LOWER_HEX[n] as int) { UnhexExact(b, n); }
  }

  /** A percent sign that is not followed by two hexadecimal digits. */
  predicate BadEscape(s: Bytes, i: nat)
    requires i < |s|
  {
    s[i] == PERCENT && !(i + 2 < |s| && Hex(s[i + 1]) && Hex(s[i + 2]))
  }

  predicate HasBadEscape(s: Bytes) { exists i :: 0 <= i < |s| && BadEscape(s, i) }

  lemma PercentNoHex()
    ensures !Hex(PERCENT)
  {
    HexDigits(PERCENT);
  }

  /** Unescaping fails exactly at a percent sign without two hexadecimal digits behind it. */
  lemma {:induction false} UnescapeFails(s: Bytes)
    ensures Unescape(s).None? <==> HasBadEscape(s)
  {
    hide Hex, Unhex;
    if s == [] {
    } else if s[0] == PERCENT {
      if |s| >= 3 {
        HexDigits(s[1]);
        HexDigits(s[2]);
        PercentNoHex();
        UnescapeFails(s[3..]);
        assert BadEscape(s, 0) || forall i :: 3 <= i < |s| ==> BadEscape(s, i) == BadEscape(s[3..], i - 3);
        if i :| 0 <= i < |s[3..]| && BadEscape(s[3..], i) { assert BadEscape(s, i + 3); }
        if i :| 0 <= i < |s| && BadEscape(s, i) { assert i >= 3 ==> BadEscape(s[3..], i - 3); }
      } else {
        assert BadEscape(s, 0);
      }
    } else {
      UnescapeFails(s[1..]);
      if i :| 0 <= i < |s[1..]| && BadEscape(s[1..], i) { assert BadEscape(s, i + 1); }
      if i :| 0 <= i < |s| && BadEscape(s, i) { assert BadEscape(s[1..], i - 1); }
    }
  }

  /** What stands for one byte: itself, a plus sign for a space, or an escape in either case. */
  predicate Spells(text: Bytes, b: byte) {
    || (text == [b] && b != PERCENT && b != PLUS)
    || (text == [PLUS] && b == SPACE)
    || (|text| == 3 && text[0] == PERCENT && Unhex(text[1]).Some? && Unhex(text[2]).Some?
        && b as int == Unhex(text[1]).value * 16 + Unhex(text[2]).value)
  }

  lemma UnescapeSpelled(text: Bytes, b: byte, rest: Bytes)
    requires Spells(text, b)
    ensures Unescape(text + rest) == Then([b], Unescape(rest))
  {
    hide Unhex;
    var s := text + rest;
    if text[0] == PERCENT {
      assert s[3..] == rest;
    } else {
      assert s[1..] == rest;
    }
  }

  function Flat(texts: seq<Bytes>): Bytes { if texts == [] then [] else texts[0] + Flat(texts[1..]) }

  /** Whatever way the bytes are spelled, they come back: escapes of either case, escapes of bytes that
      need none, a space as a plus sign or as an escape. */
  lemma {:induction false} UnescapeSpelling(texts: seq<Bytes>, s: Bytes)
    requires |texts| == |s| && forall i :: 0 <= i < |s| ==> Spells(texts[i], s[i])
    ensures Unescape(Flat(texts)) == Some(s)
  {
    hide Unescape, Spells;
    if s == [] {
      UnescapeNothing();
    } else {
      UnescapeSpelling(texts[1..], s[1..]);
      UnescapeSpelled(texts[0], s[0], Flat(texts[1..]));
      assert s == [s[0]] + s[1..];
    }
  }

  /** A segment is an error if it has a semicolon or a bad escape, is skipped if it is empty, and otherwise
      is a pair: cut at its first equals sign, the value empty if there is none. */
  lemma SegmentExact(s: Bytes)
    ensures ParseSegment(s) == Malformed <==> SEMICOLON in s || HasBadEscape(s)
    ensures ParseSegment(s) == Skipped <==> s == []
    ensures forall pair :: ParseSegment(s) == Parsed(pair) && EQUALS !in s ==>
              Unescape(s) == Some(pair.0) && pair.1 == []
    ensures forall pair, k, v :: ParseSegment(s) == Parsed(pair) && s == k + [EQUALS] + v && EQUALS !in k ==>
              Unescape(k) == Some(pair.0) && Unescape(v) == Some(pair.1)
  {
    hide Unescape, Hex;
    var i := IndexOf(s, EQUALS);
    UnescapeFails(s[..i]);
    if i < |s| {
      UnescapeFails(s[i + 1..]);
      BadEscapeSplits(s, i);
    } else {
      assert s[..i] == s;
      UnescapeNothing();
    }
    forall k, v | s == k + [EQUALS] + v && EQUALS !in k ensures k == s[..i] && v == s[i + 1..] {
      IndexOfAt(k, EQUALS, v);
    }
  }

  lemma EqualsNoHex()
    ensures !Hex(EQUALS)
  {
    HexDigits(EQUALS);
  }

  /** A bad escape lies on one side of an equals sign. */
  lemma BadEscapeSplits(s: Bytes, n: nat)
    requires n < |s| && s[n] == EQUALS
    ensures HasBadEscape(s) <==> HasBadEscape(s[..n]) || HasBadEscape(s[n + 1..])
  {
    hide Hex;
    EqualsNoHex();
    var a, b := s[..n], s[n + 1..];
    forall i | 0 <= i < n ensures BadEscape(a, i) == BadEscape(s, i) {}
    forall i | 0 <= i < |b| ensures BadEscape(b, i) == BadEscape(s, i + n + 1) {}
    if i :| 0 <= i < |s| && BadEscape(s, i) {
      assert i < n ==> BadEscape(a, i);
      assert i > n ==> BadEscape(b, i - n - 1);
    }
    if i :| 0 <= i < n && BadEscape(a, i) { assert BadEscape(s, i); }
    if i :| 0 <= i < |b| && BadEscape(b, i) { assert BadEscape(s, i + n + 1); }
  }

  predicate AnyMalformed(parts: seq<Bytes>) {
    exists i :: 0 <= i < |parts| && ParseSegment(parts[i]) == Malformed
  }

  lemma MalformedPart(parts: seq<Bytes>)
    ensures Malformed in MapSeq(ParseSegment, parts) <==> AnyMalformed(parts)
  {
    hide ParseSegment;
    var segments := MapSeq(ParseSegment, parts);
    assert forall i :: 0 <= i < |parts| ==> segments[i] == ParseSegment(parts[i]);
    if i :| 0 <= i < |parts| && ParseSegment(parts[i]) == Malformed {
      assert segments[i] in segments;
    }
  }

  /** A query is an error exactly if one of its segments is. */
  lemma QueryFails(query: Bytes)
    ensures ParseQuery(query).None? <==> AnyMalformed(Split(query, AMPERSAND))
  {
    hide AnyMalformed, ParseSegment;
    MalformedPart(Split(query, AMPERSAND));
  }
}
