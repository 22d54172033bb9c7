/** collector/parser.go: the flat "key=value,key=value" payload of the device. */
module PayloadParser {
  import opened Options
  import opened Text

  /** What one comma-separated token contributes, if anything. */
  function ParseToken(raw: string): Option<(string, string)> {
    var token := Trim(raw);
    if token == "" then None
    else
      var i := IndexOf(token, '=');
      if i == |token| then None
      else
        var key := Trim(token[..i]);
        if key == "" then None else Some((key, Trim(token[i + 1..])))
  }

  function Store(m: map<string, string>, o: Option<(string, string)>): map<string, string> {
    if o.Some? then m[o.value.0 := o.value.1] else m
  }

  /** The fields in order of appearance; a later one overrides an earlier one with its key. */
  function Collect(fields: seq<Option<(string, string)>>): map<string, string> {
    if fields == [] then map[]
    else Store(Collect(fields[..|fields| - 1]), fields[|fields| - 1])
  }

  function Parsed(raw: string): map<string, string> { Collect(MapSeq(ParseToken, Split(raw, ','))) }

  /** One round of the loop: `token` is the trimmed text of `raw`. */
  method StoreToken(m: map<string, string>, raw: string) returns (result: map<string, string>)
    ensures result == Store(m, ParseToken(raw))
  {
    result := m;
    var token := Trim(raw);
    if token == "" { return; }
    var idx := IndexOf(token, '=');
    if idx == |token| { return; }
    var key := Trim(token[..idx]);
    var val := Trim(token[idx + 1..]);
    if key != "" {
      result := result[key := val];
    }
  }

  /** Parse as the source runs it, filling the result token by token. */
  method Parse(raw: string) returns (result: map<string, string>)
    ensures result == Parsed(raw)
  {
    result := map[];
    var tokens := Split(raw, ',');
    ghost var fields := MapSeq(ParseToken, tokens);
    var i := 0;
    while i < |tokens|
      invariant 0 <= i <= |tokens|
      invariant result == Collect(fields[..i])
    {
      result := StoreToken(result, tokens[i]);
      assert fields[..i + 1][..i] == fields[..i];
      i := i + 1;
    }
    assert fields[..i] == fields;
  }

  lemma {:induction false} CollectAppend(a: seq<Option<(string, string)>>, b: seq<Option<(string, string)>>)
    ensures Collect(a + b) == Collect(a) + Collect(b)
    decreases |b|
  {
    if b == [] {
      assert a + b == a;
    } else {
      CollectAppend(a, b[..|b| - 1]);
      assert (a + b)[..|a + b| - 1] == a + b[..|b| - 1];
    }
  }

  /** Joining two payloads with a comma: the second one's fields override the first one's. */
  lemma ParseConcatenation(a: string, b: string)
    ensures Parsed(a + "," + b) == Parsed(a) + Parsed(b)
  {
    SplitAppend(a, b, ',');
    var l, r := Split(a, ','), Split(b, ',');
    MapAppend(ParseToken, l, r);
    CollectAppend(MapSeq(ParseToken, l), MapSeq(ParseToken, r));
  }

  // ---------------------------------------------------------------------------------------------
  // Round trip

  predicate CleanKey(k: string) { k != "" && Trimmed(k) && ',' !in k && '=' !in k }

  predicate CleanValue(v: string) { Trimmed(v) && ',' !in v }

  ghost predicate Clean(m: map<string, string>) {
    forall k :: k in m ==> CleanKey(k) && CleanValue(m[k])
  }

  function Field(k: string, v: string): string { k + "=" + v }

  function Fields(m: map<string, string>, order: seq<string>): (texts: seq<string>)
    requires forall k :: k in order ==> k in m
    ensures |texts| == |order| && forall i :: 0 <= i < |order| ==> texts[i] == Field(order[i], m[order[i]])
  {
    seq(|order|, i requires 0 <= i < |order| => Field(order[i], m[order[i]]))
  }

  lemma ParseField(k: string, v: string)
    requires CleanKey(k) && CleanValue(v)
    ensures ParseToken(Field(k, v)) == Some((k, v))
  {
    var token := Field(k, v);
    IndexOfAt(k, '=', v);
    TrimTrimmed(token);
    TrimTrimmed(k);
    TrimTrimmed(v);
    assert token[..|k|] == k && token[|k| + 1..] == v;
  }

  lemma {:induction false} CollectKeys(m: map<string, string>, order: seq<string>,
                                       fields: seq<Option<(string, string)>>)
    requires forall k :: k in order ==> k in m
    requires |fields| == |order| && forall i :: 0 <= i < |order| ==> fields[i] == Some((order[i], m[order[i]]))
    ensures Collect(fields) == map k | k in order :: m[k]
    decreases |order|
  {
    if order != [] {
      CollectKeys(m, order[..|order| - 1], fields[..|order| - 1]);
    }
  }

  lemma ParseEmpty()
    ensures Parsed("") == map[]
  {
    assert Split<char>("", ',') == [""];
    var none: seq<Option<(string, string)>> := [None];
    assert ParseToken("") == None;
    assert MapSeq(ParseToken, [""]) == none;
    assert none[..0] == [] && Collect(none) == map[];
  }

  lemma CollectAll(m: map<string, string>, order: seq<string>, fields: seq<Option<(string, string)>>)
    requires forall k :: k in order <==> k in m
    requires |fields| == |order| && forall i :: 0 <= i < |order| ==> fields[i] == Some((order[i], m[order[i]]))
    ensures Collect(fields) == m
  {
    CollectKeys(m, order, fields);
    assert m == map k | k in order :: m[k];
  }

  lemma ParseText(m: map<string, string>, k: string)
    requires Clean(m) && k in m
    ensures ParseToken(Field(k, m[k])) == Some((k, m[k])) && ',' !in Field(k, m[k])
  {
    ParseField(k, m[k]);
  }

  lemma ParseTexts(m: map<string, string>, order: seq<string>, texts: seq<string>)
    requires Clean(m) && forall k :: k in order <==> k in m
    requires |texts| == |order| && forall i :: 0 <= i < |order| ==> texts[i] == Field(order[i], m[order[i]])
    ensures Collect(MapSeq(ParseToken, texts)) == m
    ensures forall i :: 0 <= i < |order| ==> ',' !in texts[i]
  {
    var fields := MapSeq(ParseToken, texts);
    forall i | 0 <= i < |order| ensures fields[i] == Some((order[i], m[order[i]])) && ',' !in texts[i] {
      ParseText(m, order[i]);
    }
    CollectAll(m, order, fields);
  }

  /** Printing a clean map in any order of its keys and parsing the text gives the map back. */
  lemma PrintParse(m: map<string, string>, order: seq<string>)
    requires Clean(m) && forall k :: k in order <==> k in m
    ensures Parsed(Join(Fields(m, order), ',')) == m
  {
    var texts := Fields(m, order);
    ParseTexts(m, order, texts);
    if order == [] {
      assert Join(texts, ',') == "";
      assert m == map[];
      ParseEmpty();
    } else {
      SplitJoin(texts, ',');
    }
  }

  lemma {:induction false} CollectClean(fields: seq<Option<(string, string)>>)
    requires forall i :: 0 <= i < |fields| && fields[i].Some? ==>
               CleanKey(fields[i].value.0) && CleanValue(fields[i].value.1)
    ensures Clean(Collect(fields))
    decreases |fields|
  {
    if fields != [] {
      CollectClean(fields[..|fields| - 1]);
    }
  }

  lemma TokenClean(token: string)
    requires ',' !in token
    ensures ParseToken(token).Some? ==> CleanKey(ParseToken(token).value.0) && CleanValue(ParseToken(token).value.1)
  {
    var t := Trim(token);
    TrimFacts(token);
    var i := IndexOf(t, '=');
    if i < |t| {
      TrimFacts(t[..i]);
      TrimFacts(t[i + 1..]);
    }
  }

  /** Whatever Parse returns is clean, so printing it and parsing again changes nothing. */
  lemma ParseIsStable(raw: string, order: seq<string>)
    requires forall k :: k in order <==> k in Parsed(raw)
    ensures Parsed(Join(Fields(Parsed(raw), order), ',')) == Parsed(raw)
  {
    JoinSplit(raw, ',');
    var tokens := Split(raw, ',');
    forall i | 0 <= i < |tokens| ensures ParseToken(tokens[i]).Some? ==>
      CleanKey(ParseToken(tokens[i]).value.0) && CleanValue(ParseToken(tokens[i]).value.1)
    {
      TokenClean(tokens[i]);
    }
    CollectClean(MapSeq(ParseToken, tokens));
    PrintParse(Parsed(raw), order);
  }

  // ---------------------------------------------------------------------------------------------
  // Any payload, malformed tokens included

  lemma SpaceHasNoEquals(s: string)
    requires AllSpace(s)
    ensures '=' !in s
  {}

  /** A token gives a field exactly if it has an equals sign with more than white space before the first
      one; key and value are what stands before and after that sign, trimmed. */
  lemma TokenExact(raw: string, k: string, v: string)
    ensures ParseToken(raw) == Some((k, v)) <==>
            k != "" && exists a, b :: raw == a + "=" + b && '=' !in a && Trim(a) == k && Trim(b) == v
  {
    hide Trim, AllSpace;
    var lead, pad := TrimShape(raw);
    SpaceHasNoEquals(lead);
    SpaceHasNoEquals(pad);
    if ParseToken(raw) == Some((k, v)) {
      var token := Trim(raw);
      var n := IndexOf(token, '=');
      TrimEnds(lead, token[..n], token[n + 1..], pad);
      assert raw == (lead + token[..n]) + "=" + (token[n + 1..] + pad);
    }
    if k != "" && exists a, b :: raw == a + "=" + b && '=' !in a && Trim(a) == k && Trim(b) == v {
      var a, b :| raw == a + "=" + b && '=' !in a && Trim(a) == k && Trim(b) == v;
      SplitToken(raw, lead, Trim(raw), pad, a, b);
    }
  }

  lemma TrimEnds(lead: string, a: string, b: string, pad: string)
    requires AllSpace(lead) && AllSpace(pad)
    ensures Trim(lead + a) == Trim(a) && Trim(b + pad) == Trim(b)
  {
    hide Trim;
    assert AllSpace("");
    TrimPadded(lead, a, "");
    TrimPadded("", b, pad);
    assert lead + a + "" == lead + a && "" + b + pad == b + pad;
  }

  lemma SplitToken(raw: string, lead: string, token: string, pad: string, a: string, b: string)
    requires AllSpace(lead) && AllSpace(pad) && token == Trim(raw) && raw == lead + token + pad
    requires raw == a + "=" + b && '=' !in a && '=' !in lead && '=' !in pad
    ensures ParseToken(raw) == if Trim(a) == "" then None else Some((Trim(a), Trim(b)))
  {
    hide Trim, AllSpace;
    assert raw[|a|] == '=';
    assert |lead| <= |a|;
    assert |lead| + |token| > |a|;
    var n := |a| - |lead|;
    var front, back := token[..n], token[n + 1..];
    assert raw[..|a|] == a && raw[|a| + 1..] == b;
    assert (lead + token + pad)[..|a|] == lead + front && (lead + token + pad)[|a| + 1..] == back + pad;
    assert token == front + ['='] + back;
    IndexOfAt(front, '=', back);
    TrimEnds(lead, front, back, pad);
  }

  /** The value of a key is that of the last token that has it, and a key no token has is not there. */
  lemma LastFieldWins(raw: string, k: string) returns (i: int)
    ensures var tokens := Split(raw, ',');
            && -1 <= i < |tokens| && (k in Parsed(raw) <==> i >= 0)
            && (i >= 0 ==> ParseToken(tokens[i]) == Some((k, Parsed(raw)[k])))
            && forall j :: i < j < |tokens| ==> ParseToken(tokens[j]).None? || ParseToken(tokens[j]).value.0 != k
  {
    hide ParseToken, Split;
    i := LastWins(MapSeq(ParseToken, Split(raw, ',')), k);
  }

  lemma {:induction false} LastWins(fields: seq<Option<(string, string)>>, k: string) returns (i: int)
    ensures -1 <= i < |fields| && (k in Collect(fields) <==> i >= 0)
    ensures i >= 0 ==> fields[i] == Some((k, Collect(fields)[k]))
    ensures forall j :: i < j < |fields| ==> fields[j].None? || fields[j].value.0 != k
    decreases |fields|
  {
    if fields == [] { return -1; }
    var n := |fields| - 1;
    if fields[n].Some? && fields[n].value.0 == k { return n; }
    i := LastWins(fields[..n], k);
  }
}
