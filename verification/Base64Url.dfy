/** base64url (section 5 of RFC 4648) as scripts/encrypt_report.py writes it and emulator/report.go
reads it: padded, then unpadded as a fallback, carriage returns and line feeds ignored. */
module Base64Url {
  import opened Options

  newtype byte = x: int | 0 <= x < 256

  function Letter(n: nat): char
    requires n < 64
  {
    if n < 26 then 'A' + n as char
    else if n < 52 then 'a' + (n - 26) as char
    else if n < 62 then '0' + (n - 52) as char
    else if n == 62 then '-'
    else '_'
  }

  /** The value of a letter, 64 for anything outside the alphabet. */
  function Sextet(c: char): (n: nat)
    ensures n <= 64
  {
    if 'A' <= c <= 'Z' then (c - 'A') as nat
    else if 'a' <= c <= 'z' then (c - 'a') as nat + 26
    else if '0' <= c <= '9' then (c - '0') as nat + 52
    else if c == '-' then 62
    else if c == '_' then 63
    else 64
  }

  lemma SextetOfLetter(n: nat)
    requires n < 64
    ensures Sextet(Letter(n)) == n
    ensures Letter(n) != '=' && Letter(n) != '\n' && Letter(n) != '\r'
  {}

  const UPPER := "ABCDEFGHIJKLMNOPQRSTUVWXYZ"
  const LOWER := "abcdefghijklmnopqrstuvwxyz"
  const DIGITS := "0123456789"

  /** The alphabet of section 5 of RFC 4648. */
  const ALPHABET := UPPER + LOWER + DIGITS + "-_"

  lemma UpperAt(i: nat)
    requires i < 26
    ensures UPPER[i] == 'A' + i as char
  {}

  lemma LowerAt(i: nat)
    requires i < 26
    ensures LOWER[i] == 'a' + i as char
  {}

  lemma DigitAt(i: nat)
    requires i < 10
    ensures DIGITS[i] == '0' + i as char
  {}

  lemma LetterAt(n: nat)
    requires n < 64
    ensures Letter(n) == ALPHABET[n]
  {
    if n < 26 { UpperAt(n); } else if n < 52 { LowerAt(n - 26); } else if n < 62 { DigitAt(n - 52); }
  }

  lemma LetterOfSextet(c: char)
    requires Sextet(c) < 64
    ensures Letter(Sextet(c)) == c
  {}

  /** A character's value is its position in the alphabet. */
  lemma AlphabetExact(c: char, n: nat)
    requires n < 64
    ensures Sextet(c) == n <==> ALPHABET[n] == c
  {
    hide Letter, Sextet;
    LetterAt(n);
    SextetOfLetter(n);
    if Sextet(c) == n { LetterOfSextet(c); }
  }

  function Three(a: byte, b: byte, c: byte): string {
    [Letter(a as nat / 4), Letter(a as nat % 4 * 16 + b as nat / 16),
     Letter(b as nat % 16 * 4 + c as nat / 64), Letter(c as nat % 64)]
  }

  function Two(a: byte, b: byte): string {
    [Letter(a as nat / 4), Letter(a as nat % 4 * 16 + b as nat / 16), Letter(b as nat % 16 * 4)]
  }

  function One(a: byte): string { [Letter(a as nat / 4), Letter(a as nat % 4 * 16)] }

  /** The encoding with or without padding. */
  function Encode(data: seq<byte>, padded: bool): string {
    if data == [] then ""
    else if |data| == 1 then One(data[0]) + if padded then "==" else ""
    else if |data| == 2 then Two(data[0], data[1]) + if padded then "=" else ""
    else Three(data[0], data[1], data[2]) + Encode(data[3..], padded)
  }

  /** The letters of a quantum hold its bytes bit by bit, highest first, filled up with zeros. */
  lemma QuantumBits(a: byte, b: byte, c: byte)
    ensures var s := Three(a, b, c);
            Sextet(s[0]) * 0x4_0000 + Sextet(s[1]) * 0x1000 + Sextet(s[2]) * 0x40 + Sextet(s[3]) ==
            a as nat * 0x1_0000 + b as nat * 0x100 + c as nat
    ensures var s := Two(a, b);
            Sextet(s[0]) * 0x1000 + Sextet(s[1]) * 0x40 + Sextet(s[2]) == (a as nat * 0x100 + b as nat) * 4
    ensures var s := One(a); Sextet(s[0]) * 0x40 + Sextet(s[1]) == a as nat * 0x10
  {
    hide Letter, Sextet;
    SextetOfLetter(a as nat / 4);
    SextetOfLetter(a as nat % 4 * 16 + b as nat / 16);
    SextetOfLetter(b as nat % 16 * 4 + c as nat / 64);
    SextetOfLetter(c as nat % 64);
    SextetOfLetter(b as nat % 16 * 4);
    SextetOfLetter(a as nat % 4 * 16);
  }

  function FirstByte(x: nat, y: nat): byte
    requires x < 64 && y < 64
  {
    (x * 4 + y / 16) as byte
  }

  function SecondByte(y: nat, z: nat): byte
    requires y < 64 && z < 64
  {
    (y % 16 * 16 + z / 4) as byte
  }

  function ThirdByte(z: nat, w: nat): byte
    requires z < 64 && w < 64
  {
    (z % 4 * 64 + w) as byte
  }

  function Then(head: seq<byte>, tail: Option<seq<byte>>): Option<seq<byte>> {
    if tail.Some? then Some(head + tail.value) else None
  }

  /** One quantum after another, line breaks already gone; unused low bits are not looked at. */
  function Quanta(s: string, padded: bool): Option<seq<byte>> {
    if s == "" then Some([])
    else if |s| == 1 then None
    else
      var x, y := Sextet(s[0]), Sextet(s[1]);
      if x == 64 || y == 64 then None
      else if |s| == 2 then if padded then None else Some([FirstByte(x, y)])
      else
        var z := Sextet(s[2]);
        if z == 64 then if padded && s[2..] == "==" then Some([FirstByte(x, y)]) else None
        else if |s| == 3 then if padded then None else Some([FirstByte(x, y), SecondByte(y, z)])
        else
          var w := Sextet(s[3]);
          if w == 64 then if padded && s[3..] == "=" then Some([FirstByte(x, y), SecondByte(y, z)]) else None
          else Then([FirstByte(x, y), SecondByte(y, z), ThirdByte(z, w)], Quanta(s[4..], padded))
  }

  predicate LineBreak(c: char) { c == '\n' || c == '\r' }

  function Unbroken(s: string): string {
    if s == "" then ""
    else Unbroken(s[..|s| - 1]) + if LineBreak(s[|s| - 1]) then "" else [s[|s| - 1]]
  }

  /** DecryptReport's first step. */
  function Decode(v: string): Option<seq<byte>> {
    var padded := Quanta(Unbroken(v), true);
    if padded.Some? then padded else Quanta(Unbroken(v), false)
  }

  // ---------------------------------------------------------------------------------------------
  // Round trip

  lemma FirstBack(a: byte, low: nat)
    requires low < 16
    ensures FirstByte(a as nat / 4, a as nat % 4 * 16 + low) == a
  {}

  lemma SecondBack(a: byte, b: byte, low: nat)
    requires low < 4
    ensures SecondByte(a as nat % 4 * 16 + b as nat / 16, b as nat % 16 * 4 + low) == b
  {}

  lemma ThirdBack(b: byte, c: byte)
    ensures ThirdByte(b as nat % 16 * 4 + c as nat / 64, c as nat % 64) == c
  {}

  lemma DecodeOne(a: byte, padded: bool)
    ensures Quanta(One(a) + if padded then "==" else "", padded) == Some([a])
  {
    hide Letter, Sextet;
    SextetOfLetter(a as nat / 4);
    SextetOfLetter(a as nat % 4 * 16);
    FirstBack(a, 0);
    var s := One(a) + if padded then "==" else "";
    if padded {
      assert Sextet('=') == 64 by { PadIsNoLetter(); }
      assert s[2..] == "==";
    }
  }

  lemma PadIsNoLetter()
    ensures Sextet('=') == 64
  {}

  lemma DecodeTwo(a: byte, b: byte, padded: bool)
    ensures Quanta(Two(a, b) + if padded then "=" else "", padded) == Some([a, b])
  {
    hide Letter, Sextet;
    SextetOfLetter(a as nat / 4);
    SextetOfLetter(a as nat % 4 * 16 + b as nat / 16);
    SextetOfLetter(b as nat % 16 * 4);
    FirstBack(a, b as nat / 16);
    SecondBack(a, b, 0);
    var s := Two(a, b) + if padded then "=" else "";
    if padded {
      assert Sextet('=') == 64 by { PadIsNoLetter(); }
      assert s[3..] == "=";
    }
  }

  lemma DecodeThree(a: byte, b: byte, c: byte, rest: string, padded: bool)
    ensures Quanta(Three(a, b, c) + rest, padded) == Then([a, b, c], Quanta(rest, padded))
  {
    hide Letter, Sextet;
    SextetOfLetter(a as nat / 4);
    SextetOfLetter(a as nat % 4 * 16 + b as nat / 16);
    SextetOfLetter(b as nat % 16 * 4 + c as nat / 64);
    SextetOfLetter(c as nat % 64);
    FirstBack(a, b as nat / 16);
    SecondBack(a, b, c as nat / 64);
    ThirdBack(b, c);
    assert (Three(a, b, c) + rest)[4..] == rest;
  }

  lemma {:induction false} QuantaBack(data: seq<byte>, padded: bool)
    ensures Quanta(Encode(data, padded), padded) == Some(data)
  {
    hide Quanta, One, Two, Three;
    if data == [] {
      assert Quanta("", padded) == Some([]) by { NoQuanta(padded); }
    } else if |data| == 1 {
      DecodeOne(data[0], padded);
      assert data == [data[0]];
    } else if |data| == 2 {
      DecodeTwo(data[0], data[1], padded);
      assert data == [data[0], data[1]];
    } else {
      DecodeThree(data[0], data[1], data[2], Encode(data[3..], padded), padded);
      QuantaBack(data[3..], padded);
      assert data == [data[0], data[1], data[2]] + data[3..];
    }
  }

  lemma NoQuanta(padded: bool)
    ensures Quanta("", padded) == Some([])
  {}

  /** A text without padding decodes to the same bytes either way, or not at all as a padded one. */
  lemma {:induction false} PaddedReadingOfRaw(data: seq<byte>)
    ensures var r := Quanta(Encode(data, false), true); r == None || r == Some(data)
  {
    hide One, Two, Three, Letter, Sextet;
    if data == [] {
    } else if |data| == 1 {
      assert |One(data[0]) + ""| == 2 by { Sizes(data[0], 0, 0); }
    } else if |data| == 2 {
      assert |Two(data[0], data[1]) + ""| == 3 by { Sizes(data[0], data[1], 0); }
      TwoHasLetters(data[0], data[1]);
    } else {
      DecodeThree(data[0], data[1], data[2], Encode(data[3..], false), true);
      PaddedReadingOfRaw(data[3..]);
      assert data == [data[0], data[1], data[2]] + data[3..];
    }
  }

  lemma Sizes(a: byte, b: byte, c: byte)
    ensures |One(a)| == 2 && |Two(a, b)| == 3 && |Three(a, b, c)| == 4
  {}

  lemma TwoHasLetters(a: byte, b: byte)
    ensures Sextet(Two(a, b)[2]) != 64
  {
    hide Letter, Sextet;
    SextetOfLetter(b as nat % 16 * 4);
  }

  /** Whatever line breaks the text has picked up, with or without padding, the bytes come back. */
  lemma DecodeEncode(data: seq<byte>, padded: bool, v: string)
    requires Unbroken(v) == Encode(data, padded)
    ensures Decode(v) == Some(data)
  {
    hide Quanta, Encode;
    QuantaBack(data, padded);
    PaddedReadingOfRaw(data);
  }

  /** The encoding itself has no line breaks. */
  lemma {:induction false} UnbrokenWhole(s: string)
    requires forall i :: 0 <= i < |s| ==> !LineBreak(s[i])
    ensures Unbroken(s) == s
    decreases |s|
  {
    if s != "" { UnbrokenWhole(s[..|s| - 1]); }
  }

  lemma {:induction false} EncodeUnbroken(data: seq<byte>, padded: bool)
    ensures forall i :: 0 <= i < |Encode(data, padded)| ==> !LineBreak(Encode(data, padded)[i])
  {
    hide Letter;
    forall n: nat | n < 64 ensures !LineBreak(Letter(n)) { SextetOfLetter(n); }
    if |data| >= 3 { EncodeUnbroken(data[3..], padded); }
  }

  // ---------------------------------------------------------------------------------------------
  // Any text, malformed ones included

  /** `c` is a letter that agrees with `letter` but for its lowest bits, `low` values of which go unread. */
  predicate Agrees(c: char, letter: char, low: nat)
    requires low > 0
  {
    Sextet(c) < 64 && Sextet(c) / low == Sextet(letter) / low
  }

  /** `s` is `e` but for letter `k`, where the two may differ in the unread bits. */
  ghost predicate AgreesBut(s: string, e: string, k: nat, low: nat)
    requires k < |e| && low > 0
  {
    exists c :: Agrees(c, e[k], low) && s == e[k := c]
  }

  /** `s` is the encoding of `data`, up to the unread bits of the last letter of an incomplete quantum. */
  ghost predicate SpelledAs(s: string, data: seq<byte>, padded: bool) {
    var e := Encode(data, padded);
    var k := |data| / 3 * 4 + |data| % 3;
    var low := if |data| % 3 == 1 then 16 else 4;
    if |data| % 3 == 0 || k >= |e| then s == e else AgreesBut(s, e, k, low)
  }

  lemma {:induction false} EncodeLength(data: seq<byte>, padded: bool)
    ensures var r := |data| % 3;
            |Encode(data, padded)| == |data| / 3 * 4 + (if r == 0 then 0 else if padded then 4 else r + 1)
  {
    hide Letter;
    if |data| >= 3 { EncodeLength(data[3..], padded); }
  }

  /** Behind a common front, only the rest can differ. */
  lemma FrontCut(s: string, q: string, f: string, k: nat, low: nat)
    requires |q| == 4 && k < |f| && low > 0
    ensures AgreesBut(s, q + f, k + 4, low) <==> |s| >= 4 && s[..4] == q && AgreesBut(s[4..], f, k, low)
  {
    hide Agrees;
    var e, n := q + f, k + 4;
    assert e[n] == f[k];
    if AgreesBut(s, e, n, low) {
      var c :| Agrees(c, e[n], low) && s == e[n := c];
      assert s[..4] == q && s[4..] == f[k := c];
    }
    if |s| >= 4 && s[..4] == q && AgreesBut(s[4..], f, k, low) {
      var c :| Agrees(c, f[k], low) && s[4..] == f[k := c];
      assert s == s[..4] + s[4..] && s == e[k + 4 := c];
    }
  }

  /** A whole quantum more in front. */
  lemma SpelledCons(s: string, data: seq<byte>, padded: bool)
    requires |data| >= 3
    ensures SpelledAs(s, data, padded) <==>
            |s| >= 4 && s[..4] == Three(data[0], data[1], data[2]) && SpelledAs(s[4..], data[3..], padded)
  {
    hide Three, Agrees, Encode;
    var q, rest := Three(data[0], data[1], data[2]), data[3..];
    EncodeCons(data, padded);
    EncodeLength(rest, padded);
    Thirds(|rest|);
    if |rest| % 3 != 0 {
      FrontCut(s, q, Encode(rest, padded), |rest| / 3 * 4 + |rest| % 3, if |rest| % 3 == 1 then 16 else 4);
    } else {
      assert s == q + Encode(rest, padded) <==> |s| >= 4 && s[..4] == q && s[4..] == Encode(rest, padded);
    }
  }

  lemma EncodeCons(data: seq<byte>, padded: bool)
    requires |data| >= 3
    ensures Encode(data, padded) == Three(data[0], data[1], data[2]) + Encode(data[3..], padded)
    ensures |Three(data[0], data[1], data[2])| == 4
  {}

  lemma Thirds(n: nat)
    ensures (n + 3) / 3 == n / 3 + 1 && (n + 3) % 3 == n % 3
  {}

  lemma FirstExact(x: nat, y: nat, a: byte)
    requires x < 64 && y < 64
    ensures FirstByte(x, y) == a <==> x == a as nat / 4 && y / 16 == a as nat % 4
  {}

  lemma SecondExact(y: nat, z: nat, b: byte)
    requires y < 64 && z < 64
    ensures SecondByte(y, z) == b <==> y % 16 == b as nat / 16 && z / 4 == b as nat % 16
  {}

  lemma ThirdExact(z: nat, w: nat, c: byte)
    requires z < 64 && w < 64
    ensures ThirdByte(z, w) == c <==> z % 4 == c as nat / 64 && w == c as nat % 64
  {}

  lemma SameLetter(c: char, n: nat)
    requires n < 64
    ensures c == Letter(n) <==> Sextet(c) == n
  {
    SextetOfLetter(n);
    if Sextet(c) == n { LetterOfSextet(c); }
  }

  /** Four letters are the encoding of exactly the three bytes they are read as. */
  lemma ThreeExact(s: string, a: byte, b: byte, c: byte)
    requires |s| == 4
    ensures s == Three(a, b, c) <==>
            && (forall i :: 0 <= i < 4 ==> Sextet(s[i]) < 64)
            && FirstByte(Sextet(s[0]), Sextet(s[1])) == a && SecondByte(Sextet(s[1]), Sextet(s[2])) == b
            && ThirdByte(Sextet(s[2]), Sextet(s[3])) == c
  {
    hide Letter, Sextet, FirstByte, SecondByte, ThirdByte;
    SameLetter(s[0], a as nat / 4);
    SameLetter(s[1], a as nat % 4 * 16 + b as nat / 16);
    SameLetter(s[2], b as nat % 16 * 4 + c as nat / 64);
    SameLetter(s[3], c as nat % 64);
    if forall i :: 0 <= i < 4 ==> Sextet(s[i]) < 64 {
      FirstExact(Sextet(s[0]), Sextet(s[1]), a);
      SecondExact(Sextet(s[1]), Sextet(s[2]), b);
      ThirdExact(Sextet(s[2]), Sextet(s[3]), c);
    }
  }

  /** Whatever Quanta reads as more than two bytes begins with a whole quantum. */
  lemma QuantaCons(s: string, data: seq<byte>, padded: bool)
    requires |data| >= 3
    ensures Quanta(s, padded) == Some(data) <==>
            |s| >= 4 && s[..4] == Three(data[0], data[1], data[2]) && Quanta(s[4..], padded) == Some(data[3..])
  {
    hide Sextet, Three, FirstByte, SecondByte, ThirdByte;
    assert data == [data[0], data[1], data[2]] + data[3..];
    if |s| >= 4 { ThreeExact(s[..4], data[0], data[1], data[2]); }
  }

  lemma QuantaOne(s: string, a: byte, padded: bool)
    ensures Quanta(s, padded) == Some([a]) <==>
            && |s| >= 2 && s[0] == Letter(a as nat / 4) && Agrees(s[1], Letter(a as nat % 4 * 16), 16)
            && s[2..] == if padded then "==" else ""
  {
    hide Sextet, Letter, FirstByte;
    assert Sextet('=') == 64 by { PadIsNoLetter(); }
    SextetOfLetter(a as nat % 4 * 16);
    if |s| >= 2 {
      SameLetter(s[0], a as nat / 4);
      if Sextet(s[0]) < 64 && Sextet(s[1]) < 64 { FirstExact(Sextet(s[0]), Sextet(s[1]), a); }
    }
  }

  lemma QuantaTwo(s: string, a: byte, b: byte, padded: bool)
    ensures Quanta(s, padded) == Some([a, b]) <==>
            && |s| >= 3 && s[0] == Letter(a as nat / 4) && s[1] == Letter(a as nat % 4 * 16 + b as nat / 16)
            && Agrees(s[2], Letter(b as nat % 16 * 4), 4) && s[3..] == if padded then "=" else ""
  {
    hide Sextet, Letter, FirstByte, SecondByte;
    assert Sextet('=') == 64 by { PadIsNoLetter(); }
    SextetOfLetter(b as nat % 16 * 4);
    if |s| >= 3 {
      SameLetter(s[0], a as nat / 4);
      SameLetter(s[1], a as nat % 4 * 16 + b as nat / 16);
      if Sextet(s[0]) < 64 && Sextet(s[1]) < 64 && Sextet(s[2]) < 64 {
        FirstExact(Sextet(s[0]), Sextet(s[1]), a);
        SecondExact(Sextet(s[1]), Sextet(s[2]), b);
      }
    }
  }

  lemma SpelledOne(s: string, a: byte, padded: bool)
    ensures SpelledAs(s, [a], padded) <==>
            && |s| >= 2 && s[0] == Letter(a as nat / 4) && Agrees(s[1], Letter(a as nat % 4 * 16), 16)
            && s[2..] == if padded then "==" else ""
  {
    hide Letter, Agrees;
    var e := Encode([a], padded);
    assert e[0] == Letter(a as nat / 4) && e[1] == Letter(a as nat % 4 * 16);
    if |s| >= 2 && s[0] == e[0] && Agrees(s[1], e[1], 16) && s[2..] == (if padded then "==" else "") {
      assert s == e[1 := s[1]];
    }
  }

  lemma SpelledTwo(s: string, a: byte, b: byte, padded: bool)
    ensures SpelledAs(s, [a, b], padded) <==>
            && |s| >= 3 && s[0] == Letter(a as nat / 4) && s[1] == Letter(a as nat % 4 * 16 + b as nat / 16)
            && Agrees(s[2], Letter(b as nat % 16 * 4), 4) && s[3..] == if padded then "=" else ""
  {
    hide Letter, Agrees;
    var e := Encode([a, b], padded);
    assert e[0] == Letter(a as nat / 4) && e[1] == Letter(a as nat % 4 * 16 + b as nat / 16);
    assert e[2] == Letter(b as nat % 16 * 4);
    if |s| >= 3 && s[0] == e[0] && s[1] == e[1] && Agrees(s[2], e[2], 4) && s[3..] == (if padded then "=" else "") {
      assert s == e[2 := s[2]];
    }
  }

  lemma {:induction false} QuantaExact(s: string, data: seq<byte>, padded: bool)
    ensures Quanta(s, padded) == Some(data) <==> SpelledAs(s, data, padded)
    decreases |data|
  {
    hide Quanta, SpelledAs;
    if data == [] {
      NothingSpelled(s, padded);
    } else if |data| == 1 {
      assert data == [data[0]];
      QuantaOne(s, data[0], padded);
      SpelledOne(s, data[0], padded);
    } else if |data| == 2 {
      assert data == [data[0], data[1]];
      QuantaTwo(s, data[0], data[1], padded);
      SpelledTwo(s, data[0], data[1], padded);
    } else {
      QuantaCons(s, data, padded);
      SpelledCons(s, data, padded);
      if |s| >= 4 { QuantaExact(s[4..], data[3..], padded); }
    }
  }

  lemma NothingSpelled(s: string, padded: bool)
    ensures Quanta(s, padded) == Some([]) <==> s == ""
    ensures SpelledAs(s, [], padded) <==> s == ""
  {
    hide Sextet;
  }

  /** What is read with padding is not read differently without. */
  lemma {:induction false} ReadingsAgree(s: string)
    ensures Quanta(s, true).Some? && Quanta(s, false).Some? ==> Quanta(s, true) == Quanta(s, false)
  {
    hide Sextet, FirstByte, SecondByte, ThirdByte;
    if |s| >= 4 { ReadingsAgree(s[4..]); }
  }

  /** Decoding gives `data` exactly for the spellings of `data`, padded or not, whatever line breaks they
      have picked up, and fails on every other text. */
  lemma DecodeExact(v: string, data: seq<byte>)
    ensures Decode(v) == Some(data) <==> SpelledAs(Unbroken(v), data, true) || SpelledAs(Unbroken(v), data, false)
  {
    hide Quanta, SpelledAs, Unbroken;
    QuantaExact(Unbroken(v), data, true);
    QuantaExact(Unbroken(v), data, false);
    ReadingsAgree(Unbroken(v));
  }

  lemma {:induction false} UnbrokenExact(a: string, b: string, c: char)
    ensures Unbroken(a + b) == Unbroken(a) + Unbroken(b)
    ensures Unbroken([c]) == if c == '\n' || c == '\r' then "" else [c]
    decreases |b|
  {
    assert [c][..0] == [] && Unbroken([c][..0]) == "";
    if b == "" {
      assert a + b == a;
    } else {
      assert (a + b)[..|a + b| - 1] == a + b[..|b| - 1];
      UnbrokenExact(a, b[..|b| - 1], c);
    }
  }
}
