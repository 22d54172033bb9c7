/** The parts of Go's strings and strconv packages the parsers use, over strings of code points. */
module Text {
  import opened Options

  // ---------------------------------------------------------------------------------------------
  // Splitting and joining

  function Split<T(==)>(s: seq<T>, sep: T): (parts: seq<seq<T>>)
    ensures |parts| >= 1
  {
    if s == [] then [[]]
    else
      var rest := Split(s[1..], sep);
      if s[0] == sep then [[]] + rest else [[s[0]] + rest[0]] + rest[1..]
  }

  function Join<T>(parts: seq<seq<T>>, sep: T): seq<T> {
    if parts == [] then []
    else if |parts| == 1 then parts[0]
    else parts[0] + [sep] + Join(parts[1..], sep)
  }

  lemma {:induction false} SplitAppend<T>(a: seq<T>, b: seq<T>, sep: T)
    ensures Split(a + [sep] + b, sep) == Split(a, sep) + Split(b, sep)
  {
    var s := a + [sep] + b;
    if a == [] {
      assert s[1..] == b;
    } else {
      assert s[1..] == a[1..] + [sep] + b;
      SplitAppend(a[1..], b, sep);
    }
  }

  lemma {:induction false} SplitWhole<T>(s: seq<T>, sep: T)
    requires sep !in s
    ensures Split(s, sep) == [s]
  {
    if s != [] {
      SplitWhole(s[1..], sep);
      assert s == [s[0]] + s[1..];
    }
  }

  lemma {:induction false} SplitJoin<T>(parts: seq<seq<T>>, sep: T)
    requires parts != [] && forall i :: 0 <= i < |parts| ==> sep !in parts[i]
    ensures Split(Join(parts, sep), sep) == parts
  {
    SplitWhole(parts[0], sep);
    if |parts| > 1 {
      SplitJoin(parts[1..], sep);
      SplitAppend(parts[0], Join(parts[1..], sep), sep);
    }
  }

  lemma {:induction false} JoinSplit<T>(s: seq<T>, sep: T)
    ensures Join(Split(s, sep), sep) == s
    ensures forall i :: 0 <= i < |Split(s, sep)| ==> sep !in Split(s, sep)[i]
  {
    if s != [] {
      JoinSplit(s[1..], sep);
      var parts := Split(s, sep);
      var rest := Split(s[1..], sep);
      if s[0] == sep {
        assert parts[1..] == rest;
      } else if |rest| > 1 {
        assert parts[1..] == rest[1..];
      }
    }
  }

  function MapSeq<A, B>(f: A -> B, s: seq<A>): (r: seq<B>)
    ensures |r| == |s| && forall i :: 0 <= i < |s| ==> r[i] == f(s[i])
  {
    if s == [] then [] else [f(s[0])] + MapSeq(f, s[1..])
  }

  lemma MapAppend<A, B>(f: A -> B, a: seq<A>, b: seq<A>)
    ensures MapSeq(f, a + b) == MapSeq(f, a) + MapSeq(f, b)
  {}

  function IndexOf<T(==)>(s: seq<T>, c: T): (i: nat)
    ensures i <= |s| && c !in s[..i] && (i < |s| ==> s[i] == c)
    ensures c in s <==> i < |s|
  {
    if s == [] || s[0] == c then 0 else 1 + IndexOf(s[1..], c)
  }

  lemma {:induction false} IndexOfAt<T>(a: seq<T>, c: T, b: seq<T>)
    requires c !in a
    ensures IndexOf(a + [c] + b, c) == |a|
  {
    if a != [] {
      assert (a + [c] + b)[1..] == a[1..] + [c] + b;
      IndexOfAt(a[1..], c, b);
    }
  }

  /** strings.SplitN for n >= 1: at most n parts, the last one unsplit. */
  function SplitN(s: string, sep: char, n: nat): (parts: seq<string>)
    ensures |parts| >= 1
  {
    if n <= 1 || sep !in s then [s]
    else
      var i := IndexOf(s, sep);
      [s[..i]] + SplitN(s[i + 1..], sep, n - 1)
  }

  lemma SplitNCuts(s: string, sep: char, n: nat)
    requires n >= 1
    ensures SplitN(s, sep, n) ==
            if sep !in s || n == 1 then [s]
            else [s[..IndexOf(s, sep)]] + SplitN(s[IndexOf(s, sep) + 1..], sep, n - 1)
  {}

  lemma {:induction false} SplitNJoin(parts: seq<string>, sep: char)
    requires parts != [] && forall i :: 0 <= i < |parts| ==> sep !in parts[i]
    ensures SplitN(Join(parts, sep), sep, |parts|) == parts
  {
    hide SplitN;
    var s := Join(parts, sep);
    SplitNCuts(s, sep, |parts|);
    if |parts| > 1 {
      var head, rest := parts[0], Join(parts[1..], sep);
      assert s == head + [sep] + rest;
      hide Join;
      IndexOfAt(head, sep, rest);
      SplitNJoin(parts[1..], sep);
      assert s[|head|] == sep && s[..|head|] == head && s[|head| + 1..] == rest;
      assert parts == [head] + parts[1..];
    }
  }

  // ---------------------------------------------------------------------------------------------
  // White space

  predicate IsSpace(c: char) {
    || '\t' <= c <= '\r' || c == ' ' || c == '\U{85}' || c == '\U{A0}' || c == '\U{1680}'
    || '\U{2000}' <= c <= '\U{200A}' || c == '\U{2028}' || c == '\U{2029}' || c == '\U{202F}'
    || c == '\U{205F}' || c == '\U{3000}'
  }

  /** The 25 characters of Unicode's White_Space property. */
  const WHITE_SPACE :=
    "\t\n\U{B}\U{C}\r \U{85}\U{A0}\U{1680}\U{2000}\U{2001}\U{2002}\U{2003}\U{2004}\U{2005}\U{2006}\U{2007}\U{2008}"
    + "\U{2009}\U{200A}\U{2028}\U{2029}\U{202F}\U{205F}\U{3000}"

  lemma SpaceExact(c: char)
    ensures IsSpace(c) <==> c in WHITE_SPACE
  {}

  function TrimLeft(s: string): string {
    if s != [] && IsSpace(s[0]) then TrimLeft(s[1..]) else s
  }

  function TrimRight(s: string): string {
    if s != [] && IsSpace(s[|s| - 1]) then TrimRight(s[..|s| - 1]) else s
  }

  function Trim(s: string): string { TrimRight(TrimLeft(s)) }

  predicate Trimmed(s: string) { s == [] || (!IsSpace(s[0]) && !IsSpace(s[|s| - 1])) }

  lemma {:induction false} TrimLeftFacts(s: string)
    ensures var r := TrimLeft(s);
            (r != [] ==> !IsSpace(r[0])) && |r| <= |s| && r == s[|s| - |r|..]
  {
    if s != [] && IsSpace(s[0]) { TrimLeftFacts(s[1..]); }
  }

  lemma {:induction false} TrimRightFacts(s: string)
    ensures var r := TrimRight(s);
            (r != [] ==> !IsSpace(r[|r| - 1])) && |r| <= |s| && r == s[..|r|]
  {
    if s != [] && IsSpace(s[|s| - 1]) { TrimRightFacts(s[..|s| - 1]); }
  }

  lemma TrimFacts(s: string)
    ensures Trimmed(Trim(s))
    ensures forall c :: c in Trim(s) ==> c in s
  {
    TrimLeftFacts(s);
    TrimRightFacts(TrimLeft(s));
  }

  lemma TrimTrimmed(s: string)
    requires Trimmed(s)
    ensures Trim(s) == s
  {}

  predicate AllSpace(s: string) { forall i :: 0 <= i < |s| ==> IsSpace(s[i]) }

  lemma {:induction false} TrimLeftDrops(s: string)
    ensures |TrimLeft(s)| <= |s| && AllSpace(s[..|s| - |TrimLeft(s)|]) && s == s[..|s| - |TrimLeft(s)|] + TrimLeft(s)
  {
    hide IsSpace;
    if s != [] && IsSpace(s[0]) {
      TrimLeftDrops(s[1..]);
      var n := |s| - |TrimLeft(s)|;
      assert s[..n] == [s[0]] + s[1..][..n - 1];
      assert s == s[..n] + s[n..];
    }
  }

  lemma {:induction false} TrimLeftBlank(s: string)
    requires AllSpace(s)
    ensures TrimLeft(s) == ""
  {
    hide IsSpace;
    if s != [] { TrimLeftBlank(s[1..]); }
  }

  lemma {:induction false} TrimRightDrops(s: string)
    ensures |TrimRight(s)| <= |s| && AllSpace(s[|TrimRight(s)|..]) && s == TrimRight(s) + s[|TrimRight(s)|..]
  {
    hide IsSpace;
    if s != [] && IsSpace(s[|s| - 1]) {
      TrimRightDrops(s[..|s| - 1]);
    }
  }

  lemma {:induction false} TrimLeftSkips(lead: string, s: string)
    requires AllSpace(lead)
    ensures TrimLeft(lead + s) == TrimLeft(s)
  {
    hide IsSpace;
    if lead == [] {
      assert lead + s == s;
    } else {
      assert (lead + s)[1..] == lead[1..] + s;
      TrimLeftSkips(lead[1..], s);
    }
  }

  lemma {:induction false} TrimRightSkips(s: string, pad: string)
    requires AllSpace(pad)
    ensures TrimRight(s + pad) == TrimRight(s)
    decreases |pad|
  {
    hide IsSpace;
    if pad == [] {
      assert s + pad == s;
    } else {
      assert (s + pad)[..|s + pad| - 1] == s + pad[..|pad| - 1];
      TrimRightSkips(s, pad[..|pad| - 1]);
    }
  }

  lemma {:induction false} TrimLeftKeeps(s: string, pad: string)
    requires !AllSpace(s)
    ensures TrimLeft(s + pad) == TrimLeft(s) + pad
  {
    hide IsSpace;
    assert s != "";
    if IsSpace(s[0]) {
      assert (s + pad)[1..] == s[1..] + pad;
      TrimLeftKeeps(s[1..], pad);
    }
  }

  /** Trimming does not see white space added on either side. */
  lemma TrimPadded(lead: string, s: string, pad: string)
    requires AllSpace(lead) && AllSpace(pad)
    ensures Trim(lead + s + pad) == Trim(s)
  {
    hide IsSpace, TrimLeft, TrimRight;
    assert lead + s + pad == lead + (s + pad);
    TrimLeftSkips(lead, s + pad);
    if AllSpace(s) {
      TrimLeftBlank(s);
      TrimLeftBlank(s + pad);
    } else {
      TrimLeftKeeps(s, pad);
      TrimRightSkips(TrimLeft(s), pad);
    }
  }

  /** A text is its trimmed form between white space. */
  lemma TrimShape(s: string) returns (lead: string, pad: string)
    ensures AllSpace(lead) && AllSpace(pad) && s == lead + Trim(s) + pad
  {
    hide IsSpace, TrimLeft, TrimRight;
    var t := TrimLeft(s);
    TrimLeftDrops(s);
    TrimRightDrops(t);
    lead, pad := s[..|s| - |t|], t[|TrimRight(t)|..];
  }

  lemma TrimKeepsText(s: string, c: char)
    requires c in s && !IsSpace(c)
    ensures c in Trim(s)
  {
    hide Trim;
    var lead, pad := TrimShape(s);
    assert c !in lead && c !in pad;
  }

  // ---------------------------------------------------------------------------------------------
  // Decimal integers

  const INT64_MIN: int := -0x8000_0000_0000_0000
  const INT64_MAX: int := 0x7FFF_FFFF_FFFF_FFFF

  predicate IsInt64(n: int) { INT64_MIN <= n <= INT64_MAX }

  predicate IsDigit(c: char) { '0' <= c <= '9' }

  predicate AllDigits(s: string) { forall i :: 0 <= i < |s| ==> IsDigit(s[i]) }

  function DigitChar(d: nat): (c: char)
    requires d < 10
    ensures IsDigit(c)
  {
    '0' + d as char
  }

  function NumberValue(s: string): (n: int)
    requires AllDigits(s)
    ensures n >= 0
  {
    if s == [] then 0 else NumberValue(s[..|s| - 1]) * 10 + (s[|s| - 1] - '0') as int
  }

  /** strconv.ParseInt(s, 10, 64): an optional sign, then digits only, within the 64-bit range. */
  function ParseInt(s: string): Option<int> {
    var signed := s != [] && (s[0] == '-' || s[0] == '+');
    var digits := if signed then s[1..] else s;
    if digits == [] || !AllDigits(digits) then None
    else
      var n: int := if signed && s[0] == '-' then -NumberValue(digits) else NumberValue(digits);
      if IsInt64(n) then Some(n) else None
  }

  /** An integer is read exactly from an optional sign and one or more decimal digits, if it fits 64 bits. */
  lemma ParseIntExact(s: string, n: int)
    ensures ParseInt(s) == Some(n) <==>
            -0x8000_0000_0000_0000 <= n < 0x8000_0000_0000_0000 &&
            exists sign, digits ::
              && s == sign + digits && sign in {"", "+", "-"} && digits != "" && AllDigits(digits)
              && n == if sign == "-" then -NumberValue(digits) else NumberValue(digits)
  {
    hide NumberValue;
    if ParseInt(s) == Some(n) {
      var signed := s[0] == '-' || s[0] == '+';
      assert s == (if signed then [s[0]] else "") + (if signed then s[1..] else s);
    }
    if -0x8000_0000_0000_0000 <= n < 0x8000_0000_0000_0000 && exists sign, digits ::
         && s == sign + digits && sign in {"", "+", "-"} && digits != "" && AllDigits(digits)
         && n == if sign == "-" then -NumberValue(digits) else NumberValue(digits)
    {
      var sign, digits :|
        && s == sign + digits && sign in {"", "+", "-"} && digits != "" && AllDigits(digits)
        && n == if sign == "-" then -NumberValue(digits) else NumberValue(digits);
      assert IsDigit(digits[0]);
      if sign == "" {
        assert s == digits;
      } else {
        assert s[1..] == digits;
      }
    }
  }

  function FormatNat(n: nat): (s: string)
    ensures s != [] && AllDigits(s)
  {
    if n < 10 then [DigitChar(n)] else FormatNat(n / 10) + [DigitChar(n % 10)]
  }

  function FormatInt(n: int): string {
    if n < 0 then "-" + FormatNat(-n) else FormatNat(n)
  }

  lemma {:induction false} FormatNatValue(n: nat)
    ensures NumberValue(FormatNat(n)) == n
  {
    var s := FormatNat(n);
    if n < 10 {
      assert s[..|s| - 1] == [];
    } else {
      FormatNatValue(n / 10);
      assert s[..|s| - 1] == FormatNat(n / 10);
    }
  }

  /** Printing an int64 and parsing it back gives the number. */
  lemma ParseFormat(n: int)
    requires IsInt64(n)
    ensures ParseInt(FormatInt(n)) == Some(n)
  {
    FormatNatValue(if n < 0 then -n else n);
    if n < 0 {
      assert FormatInt(n)[1..] == FormatNat(-n);
    } else {
      assert IsDigit(FormatInt(n)[0]);
    }
  }

  lemma FormatIntChars(n: int)
    ensures FormatInt(n) != [] && Trimmed(FormatInt(n))
    ensures forall c :: c in FormatInt(n) ==> c == '-' || IsDigit(c)
  {
    var digits := FormatNat(if n < 0 then -n else n);
    assert forall c :: c in digits ==> IsDigit(c);
  }

  lemma {:induction false} NoLeadingZero(n: nat)
    ensures |FormatNat(n)| > 1 ==> FormatNat(n)[0] != '0'
    ensures n > 0 ==> FormatNat(n)[0] != '0'
  {
    if n >= 10 { NoLeadingZero(n / 10); }
  }

  /** A number is printed without plus sign or leading zeros. */
  lemma FormatExact(n: int)
    ensures var s := FormatInt(n);
            && (s[0] == '-' <==> n < 0)
            && (n == 0 ==> s == "0")
            && (n > 0 ==> AllDigits(s) && s[0] != '0')
            && (n < 0 ==> AllDigits(s[1..]) && s[1] != '0')
  {
    NoLeadingZero(if n < 0 then -n else n);
    var digits := FormatNat(if n < 0 then -n else n);
    assert digits[0] in digits;
  }

  lemma FormatIntInjective(m: int, n: int)
    requires FormatInt(m) == FormatInt(n)
    ensures m == n
  {
    FormatNatValue(if m < 0 then -m else m);
    FormatNatValue(if n < 0 then -n else n);
    assert (m < 0) == (FormatInt(m)[0] == '-');
    assert (n < 0) == (FormatInt(n)[0] == '-');
    if m < 0 {
      assert FormatInt(m)[1..] == FormatNat(-m) && FormatInt(n)[1..] == FormatNat(-n);
    }
  }

  /** A text holding any character but a sign or a digit is not an integer. */
  lemma NotAnInt(s: string, c: char)
    requires c in s && c != '-' && c != '+' && !IsDigit(c)
    ensures ParseInt(s) == None
  {
    var i :| 0 <= i < |s| && s[i] == c;
    var signed := s[0] == '-' || s[0] == '+';
    var digits := if signed then s[1..] else s;
    assert signed ==> i > 0 && digits[i - 1] == c;
  }
}
