/** The encrypted report pipeline: scripts/encrypt_report.py encodes, emulator/report.go decodes.
Texts are byte strings.  One AES block is an unknown bijection on 16 bytes. */
module Report {
  import opened Options
  import opened Text
  import opened Base64Url
  import opened FormEncoding

  datatype Failure = BadBase64 | BadLength(n: nat) | NothingToUnpad | BadPadByte | PadTooLong | UnevenPad

  datatype Result<T> = Ok(value: T) | Err(failure: Failure)

  // ---------------------------------------------------------------------------------------------
  // PKCS#7 padding (section 6.3 of RFC 5652)

  const BLOCK: nat := 16

  function Repeat(b: byte, n: nat): (r: Bytes)
    ensures |r| == n && forall i :: 0 <= i < n ==> r[i] == b
  {
    seq(n, _ => b)
  }

  /** `n` bytes, each holding n. */
  function Padding(n: nat): Bytes
    requires n <= BLOCK
  {
    Repeat(n as byte, n)
  }

  function Pad(b: Bytes): Bytes { b + Padding(BLOCK - |b| % BLOCK) }

  /** pkcs7Unpad. */
  method Unpad(b: Bytes) returns (r: Result<Bytes>)
    ensures r == Unpadded(b)
  {
    if |b| == 0 { return Err(NothingToUnpad); }
    var pad := b[|b| - 1] as nat;
    if pad < 1 || pad > BLOCK { return Err(BadPadByte); }
    if |b| < pad { return Err(PadTooLong); }
    var i := |b| - pad;
    while i < |b|
      invariant |b| - pad <= i <= |b|
      invariant forall j :: |b| - pad <= j < i ==> b[j] as nat == pad
    {
      if b[i] as nat != pad {
        assert b[|b| - pad..][i - (|b| - pad)] == b[i];
        return Err(UnevenPad);
      }
      i := i + 1;
    }
    assert b[|b| - pad..] == Padding(pad);
    return Ok(b[..|b| - pad]);
  }

  function Unpadded(b: Bytes): Result<Bytes> {
    if b == [] then Err(NothingToUnpad)
    else
      var pad := b[|b| - 1] as nat;
      if pad < 1 || pad > BLOCK then Err(BadPadByte)
      else if |b| < pad then Err(PadTooLong)
      else if b[|b| - pad..] != Padding(pad) then Err(UnevenPad)
      else Ok(b[..|b| - pad])
  }

  /** Unpadding succeeds with `p` exactly on `p` followed by 1 to 16 bytes holding their own number. */
  lemma UnpadExact(b: Bytes, p: Bytes)
    ensures Unpadded(b) == Ok(p) <==> exists n: nat :: 1 <= n <= 16 && b == p + Padding(n)
  {
    if Unpadded(b) == Ok(p) {
      var n := b[|b| - 1] as nat;
      assert b == p + Padding(n);
    }
    if n: nat :| 1 <= n <= BLOCK && b == p + Padding(n) {
      assert b[|b| - 1] == n as byte && b[..|b| - n] == p && b[|b| - n..] == Padding(n);
    }
  }

  /** Which error a failure is: nothing to unpad, a last byte that is no padding length, fewer bytes than
      that, or padding bytes that differ from it. */
  lemma UnpadFails(b: Bytes)
    ensures Unpadded(b) == Err(NothingToUnpad) <==> b == []
    ensures b != [] ==>
              var r, n := Unpadded(b), b[|b| - 1] as nat;
              && (r == Err(BadPadByte) <==> n == 0 || n > 16)
              && (r == Err(PadTooLong) <==> 1 <= n <= 16 && n > |b|)
              && (r == Err(UnevenPad) <==>
                    1 <= n <= 16 && n <= |b| && exists i :: |b| - n <= i < |b| && b[i] as nat != n)
  {
    if b != [] {
      var n := b[|b| - 1] as nat;
      if 1 <= n <= 16 && n <= |b| {
        var tail := b[|b| - n..];
        if tail != Padding(n) {
          var k :| 0 <= k < n && tail[k] != Padding(n)[k];
          assert b[|b| - n + k] as nat != n;
        } else {
          forall i | |b| - n <= i < |b| ensures b[i] as nat == n { assert b[i] == tail[i - (|b| - n)]; }
        }
      }
    }
  }

  /** On whole blocks that is exactly the padding of `p`. */
  lemma UnpadInvertsPad(b: Bytes, p: Bytes)
    requires |b| % 16 == 0
    ensures Unpadded(b) == Ok(p) <==> b == Pad(p)
  {
    UnpadExact(b, p);
    if n: nat :| 1 <= n <= BLOCK && b == p + Padding(n) {
      OnlyPad(|p|, n);
    }
  }

  lemma OnlyPad(length: nat, n: nat)
    requires 1 <= n <= BLOCK && (length + n) % BLOCK == 0
    ensures n == BLOCK - length % BLOCK
  {}

  lemma PadWholeBlocks(p: Bytes)
    ensures |Pad(p)| % BLOCK == 0 && |Pad(p)| > 0
  {}

  // ---------------------------------------------------------------------------------------------
  // Blocks

  type Block = b: Bytes | |b| == BLOCK witness Repeat(0, BLOCK)

  /** `d` undoes `e` and `e` undoes `d`, as AES under one key does. */
  ghost predicate Inverse(e: Block -> Block, d: Block -> Block) {
    (forall b :: d(e(b)) == b) && (forall b :: e(d(b)) == b)
  }

  /** ECB: every block on its own. */
  function Blockwise(f: Block -> Block, b: Bytes): (r: Bytes)
    requires |b| % BLOCK == 0
    ensures |r| == |b|
  {
    if b == [] then [] else Blockwise(f, b[..|b| - BLOCK]) + f(b[|b| - BLOCK..])
  }

  lemma BlockwiseSnoc(f: Block -> Block, front: Bytes, last: Block)
    requires |front| % BLOCK == 0
    ensures |front + last| % BLOCK == 0 && Blockwise(f, front + last) == Blockwise(f, front) + f(last)
  {
    var b := front + last;
    assert b[..|b| - BLOCK] == front && b[|b| - BLOCK..] == last;
  }

  /** The block of the result at offset `n` is `f` of the block there. */
  lemma {:induction false} EachBlock(f: Block -> Block, b: Bytes, n: nat)
    requires |b| % 16 == 0 && n % 16 == 0 && n + 16 <= |b|
    ensures Blockwise(f, b)[n..n + 16] == f(b[n..n + 16])
    decreases |b|
  {
    hide Blockwise;
    var front, last := b[..|b| - BLOCK], b[|b| - BLOCK..];
    assert b == front + last;
    BlockwiseSnoc(f, front, last);
    if n < |front| {
      assert n + 16 <= |front|;
      EachBlock(f, front, n);
      assert front[n..n + 16] == b[n..n + 16];
      assert Blockwise(f, b)[n..n + 16] == Blockwise(f, front)[n..n + 16];
    } else {
      assert n == |front| && b[n..n + 16] == last;
    }
  }

  lemma {:induction false} BlockwiseInverse(e: Block -> Block, d: Block -> Block, b: Bytes)
    requires |b| % BLOCK == 0 && forall x :: d(e(x)) == x
    ensures Blockwise(d, Blockwise(e, b)) == b
    decreases |b|
  {
    if b != [] {
      var front, last := b[..|b| - BLOCK], b[|b| - BLOCK..];
      hide Blockwise;
      BlockwiseInverse(e, d, front);
      BlockwiseSnoc(e, front, last);
      BlockwiseSnoc(d, Blockwise(e, front), e(last));
      assert b == front + last;
    }
  }

  lemma NoBlocks(f: Block -> Block)
    ensures Blockwise(f, []) == []
  {}

  /** DecryptReport: base64url, whole blocks only, the block loop, then the padding. */
  method DecryptReport(v: string, d: Block -> Block) returns (r: Result<Bytes>)
    ensures r == Decrypted(v, d)
  {
    hide Decode, Unpadded, Blockwise;
    var data := Decode(v);
    if data.None? { return Err(BadBase64); }
    var ct := data.value;
    if |ct| == 0 || |ct| % BLOCK != 0 { return Err(BadLength(|ct|)); }
    var pt := new byte[|ct|];
    var i := 0;
    assert Blockwise(d, []) == [] by { NoBlocks(d); }
    while i < |ct|
      invariant 0 <= i <= |ct| && i % BLOCK == 0
      invariant pt[..i] == Blockwise(d, ct[..i])
    {
      var block := d(ct[i..i + BLOCK]);
      ghost var done := pt[..i];
      forall j | 0 <= j < BLOCK { pt[i + j] := block[j]; }
      assert pt[..i + BLOCK] == done + block;
      BlockwiseSnoc(d, ct[..i], ct[i..i + BLOCK]);
      assert ct[..i + BLOCK] == ct[..i] + ct[i..i + BLOCK];
      i := i + BLOCK;
    }
    assert ct[..i] == ct && pt[..i] == pt[..];
    r := Unpad(pt[..]);
  }

  function Decrypted(v: string, d: Block -> Block): Result<Bytes> {
    match Decode(v)
    case None => Err(BadBase64)
    case Some(ct) =>
      if |ct| == 0 || |ct| % BLOCK != 0 then Err(BadLength(|ct|)) else Unpadded(Blockwise(d, ct))
  }

  /** Before the padding two things can fail: the text is no base64url, or its bytes are no whole blocks. */
  lemma DecryptFails(v: string, d: Block -> Block)
    ensures Decrypted(v, d) == Err(BadBase64) <==> Decode(v) == None
    ensures forall n :: Decrypted(v, d) == Err(BadLength(n)) <==>
              Decode(v).Some? && |Decode(v).value| == n && (n == 0 || n % 16 != 0)
  {
    hide Decode;
  }

  function Encrypted(plaintext: Bytes, e: Block -> Block, padded: bool): string {
    PadWholeBlocks(plaintext);
    Encode(Blockwise(e, Pad(plaintext)), padded)
  }

  /** DecryptReport returns `p` exactly when the bytes it was sent are the encrypted padding of `p`. */
  lemma DecryptExact(v: string, e: Block -> Block, d: Block -> Block, p: Bytes)
    requires Inverse(e, d)
    ensures |Pad(p)| % BLOCK == 0
    ensures Decrypted(v, d) == Ok(p) <==> Decode(v) == Some(Blockwise(e, Pad(p)))
  {
    hide Decode, Unpadded;
    PadWholeBlocks(p);
    var sealed := Blockwise(e, Pad(p));
    BlockwiseInverse(e, d, Pad(p));
    if Decode(v) == Some(sealed) {
      UnpadInvertsPad(Blockwise(d, sealed), p);
    }
    if Decrypted(v, d) == Ok(p) {
      var ct := Decode(v).value;
      UnpadInvertsPad(Blockwise(d, ct), p);
      BlockwiseInverse(d, e, ct);
    }
  }

  /** Decrypting what was encrypted gives the plaintext, padded base64 or not, line breaks or not. */
  lemma DecryptEncrypt(plaintext: Bytes, e: Block -> Block, d: Block -> Block, padded: bool, v: string)
    requires Inverse(e, d) && Unbroken(v) == Encrypted(plaintext, e, padded)
    ensures Decrypted(v, d) == Ok(plaintext)
  {
    hide Decode, Encode;
    PadWholeBlocks(plaintext);
    DecodeEncode(Blockwise(e, Pad(plaintext)), padded, v);
    DecryptExact(v, e, d, plaintext);
  }

  // ---------------------------------------------------------------------------------------------
  // The whole pipeline

  /** What encrypt_report.py prints for these pairs. */
  function Sent(pairs: seq<Pair>, e: Block -> Block): string { Encrypted(FormEncode(pairs), e, true) }

  /** What the emulator makes of it: the fields, or nothing if any stage fails. */
  function Received(v: string, d: Block -> Block): Option<map<Bytes, Bytes>> {
    match Decrypted(v, d)
    case Err(_) => None
    case Ok(plaintext) =>
      var pairs := ParseQuery(plaintext);
      if pairs.Some? then Some(FirstValues(pairs.value)) else None
  }

  class ReportMetrics {
    var reportDecodeErrors: nat
    var reportPayloadBytes: nat

    /** The decoding part of handleReport. */
    method HandleReport(v: string, d: Block -> Block) returns (fields: Option<map<Bytes, Bytes>>)
      modifies this
      ensures fields == if v == "" then None else Received(v, d)
      ensures reportDecodeErrors == old(reportDecodeErrors) + if v != "" && fields.None? then 1 else 0
      ensures reportPayloadBytes ==
              if v != "" && Decrypted(v, d).Ok? then |Decrypted(v, d).value| else old(reportPayloadBytes)
    {
      hide Decrypted, ParseQuery;
      fields := None;
      if v != "" {
        var plaintext := DecryptReport(v, d);
        if plaintext.Err? {
          reportDecodeErrors := reportDecodeErrors + 1;
        } else {
          reportPayloadBytes := |plaintext.value|;
          fields := ParseReport(plaintext.value);
          if fields.None? { reportDecodeErrors := reportDecodeErrors + 1; }
        }
      }
    }
  }

  /** Every list of pairs sent through all four stages arrives as its first-value-wins map, under any
      block bijection, with or without base64 padding, whatever line breaks were put in. */
  lemma ReportRoundTrip(pairs: seq<Pair>, e: Block -> Block, d: Block -> Block, padded: bool, v: string)
    requires Inverse(e, d) && Unbroken(v) == Encrypted(FormEncode(pairs), e, padded)
    ensures Received(v, d) == Some(FirstValues(pairs))
  {
    hide Decrypted, Encrypted, ParseQuery, FormEncode;
    DecryptEncrypt(FormEncode(pairs), e, d, padded, v);
    ParseEncode(pairs);
  }

  /** In particular what encrypt_report.py prints. */
  lemma SentIsReceived(pairs: seq<Pair>, e: Block -> Block, d: Block -> Block)
    requires Inverse(e, d)
    ensures Received(Sent(pairs, e), d) == Some(FirstValues(pairs))
  {
    hide Encode, Received;
    var plaintext := FormEncode(pairs);
    PadWholeBlocks(plaintext);
    EncodeUnbroken(Blockwise(e, Pad(plaintext)), true);
    UnbrokenWhole(Sent(pairs, e));
    ReportRoundTrip(pairs, e, d, true, Sent(pairs, e));
  }
}
