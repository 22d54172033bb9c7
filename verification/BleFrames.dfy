/** esp32/marstek_ble.py: command frames, their XOR checksum and what is accepted without it; and
the history records esp32/webserver.py reads out of a frame. */
module BleFrames {
  import opened Options

  type Frame = seq<bv8>

  const START: bv8 := 0x73
  const IDENT: bv8 := 0x23
  const RUNTIME: bv8 := 0x03
  const HISTORY: bv8 := 0x30
  const MIN_RUNTIME_FRAME_LEN: nat := 39

  // ---------------------------------------------------------------------------------------------
  // Checksums

  function Xor(s: Frame): bv8 {
    if s == [] then 0 else Xor(s[..|s| - 1]) ^ s[|s| - 1]
  }

  method Checksum(s: Frame) returns (crc: bv8)
    ensures crc == Xor(s)
  {
    crc := 0;
    for i := 0 to |s|
      invariant crc == Xor(s[..i])
    {
      assert s[..i + 1][..i] == s[..i];
      crc := crc ^ s[i];
    }
    assert s[..|s|] == s;
  }

  /** The frame body: start, length, ident, opcode and payload; a length over one byte is an error. */
  function Body(opcode: bv8, payload: Frame): (body: Option<Frame>)
    ensures body.Some? <==> |payload| <= 250
  {
    if |payload| > 250 then None else Some([START, (5 + |payload|) as bv8, IDENT, opcode] + payload)
  }

  function Build(opcode: bv8, payload: Frame): Option<Frame> {
    var body := Body(opcode, payload);
    if body.None? then None else Some(body.value + [Xor(body.value)])
  }

  /** build_frame; None is Python's ValueError. */
  method BuildFrame(opcode: bv8, payload: Frame) returns (frame: Option<Frame>)
    ensures frame == Build(opcode, payload)
  {
    var length := 4 + |payload| + 1;
    if length > 255 { return None; }
    var body := [START, length as bv8, IDENT, opcode] + payload;
    var crc := Checksum(body);
    return Some(body + [crc]);
  }

  datatype Verdict = Malformed | Carries(opcode: bv8, crcOk: bool)

  function Extract(frame: Frame): Verdict {
    if |frame| < 5 || frame[0] != START || frame[2] != IDENT then Malformed
    else Carries(frame[3], Xor(frame[..|frame| - 1]) == frame[|frame| - 1])
  }

  /** _extract_opcode. */
  method ExtractOpcode(frame: Frame) returns (verdict: Verdict)
    ensures verdict == Extract(frame)
  {
    if |frame| < 5 { return Malformed; }
    if frame[0] != START || frame[2] != IDENT { return Malformed; }
    var crc := Checksum(frame[..|frame| - 1]);
    return Carries(frame[3], crc == frame[|frame| - 1]);
  }

  // ---------------------------------------------------------------------------------------------
  // Frames without a good checksum

  function Printables(s: Frame): (n: nat)
    ensures n <= |s|
  {
    if s == [] then 0
    else Printables(s[..|s| - 1]) + if 32 <= s[|s| - 1] <= 126 then 1 else 0
  }

  predicate PrintableAscii(payload: Frame) {
    payload != [] && Printables(payload) >= |payload| * 2 / 3
  }

  /** _is_printable_ascii_payload: at least two thirds of the bytes, rounded down. */
  method IsPrintableAscii(payload: Frame) returns (r: bool)
    ensures r == PrintableAscii(payload)
  {
    if |payload| == 0 { return false; }
    var printable := 0;
    for i := 0 to |payload|
      invariant printable == Printables(payload[..i])
    {
      assert payload[..i + 1][..i] == payload[..i];
      if 32 <= payload[i] <= 126 { printable := printable + 1; }
    }
    assert payload[..|payload|] == payload;
    return printable >= |payload| * 2 / 3;
  }

  /** _accept_crc_mismatch_frame. */
  predicate AcceptMismatch(opcode: bv8, frame: Frame)
    requires |frame| >= 5
  {
    if opcode == RUNTIME then |frame| >= MIN_RUNTIME_FRAME_LEN
    else if opcode == 0x09 then
      var payload := frame[4..|frame| - 1];
      PrintableAscii(if |payload| >= 2 then payload[2..] else payload)
    else if opcode == 0x23 then PrintableAscii(frame[4..|frame| - 1])
    else if opcode in {0x12, 0x14, 0x35, 0x02, 0x25, 0x26} then |frame| >= 6
    else if opcode == HISTORY then |frame| >= 6
    else |frame| >= 5
  }

  /** What the notification loop queues, and under which opcode. */
  predicate Queueable(frame: Frame, opcode: bv8) {
    var verdict := Extract(frame);
    verdict.Carries? && verdict.opcode == opcode && (verdict.crcOk || AcceptMismatch(opcode, frame))
  }

  /** Where the printable ASCII bytes are. */
  function PrintablePlaces(s: Frame): set<int> { set i | 0 <= i < |s| && 32 <= s[i] <= 126 }

  lemma {:induction false} PrintablesCount(s: Frame)
    ensures Printables(s) == |PrintablePlaces(s)|
  {
    if s == [] {
      assert PrintablePlaces(s) == {};
    } else {
      var n := |s| - 1;
      PrintablesCount(s[..n]);
      var before, all := PrintablePlaces(s[..n]), PrintablePlaces(s);
      if 32 <= s[n] <= 126 {
        assert n !in before && all == before + {n};
      } else {
        assert all == before;
      }
    }
  }

  /** At least two of three bytes are printable, give or take the rounding, and there are some. */
  lemma PrintableExact(payload: Frame)
    ensures PrintableAscii(payload) <==>
            payload != [] && 3 * |PrintablePlaces(payload)| + 2 >= 2 * |payload|
  {
    PrintablesCount(payload);
  }

  /** What is queued under which opcode: a well-shaped frame whose bytes XOR to 0, or else one that passes
      for its opcode: a runtime frame of 39 bytes, a printable name behind two status bytes, a printable
      text, at least a byte of payload for seven more opcodes, anything for the rest. */
  lemma QueueableExact(frame: Frame, opcode: bv8)
    ensures Queueable(frame, opcode) <==>
            && |frame| >= 5 && frame[0] == 0x73 && frame[2] == 0x23 && frame[3] == opcode
            && (Xor(frame) == 0 ||
                var payload := frame[4..|frame| - 1];
                if opcode == 0x03 then |frame| >= 39
                else if opcode == 0x09 then PrintableAscii(if |payload| >= 2 then payload[2..] else payload)
                else if opcode == 0x23 then PrintableAscii(payload)
                else if opcode in {0x02, 0x12, 0x14, 0x25, 0x26, 0x30, 0x35} then payload != []
                else true)
  {
    hide Xor, PrintableAscii;
    ExtractExact(frame, opcode);
  }

  // ---------------------------------------------------------------------------------------------
  // Round trip and error detection

  /** A frame is reported checksum-correct exactly when it has the shape and all its bytes XOR to 0. */
  lemma ExtractExact(frame: Frame, opcode: bv8)
    ensures Extract(frame) == Carries(opcode, true) <==>
            |frame| >= 5 && frame[0] == 0x73 && frame[2] == 0x23 && frame[3] == opcode && Xor(frame) == 0
  {
    if |frame| >= 5 {
      var body, tail := Xor(frame[..|frame| - 1]), frame[|frame| - 1];
      assert body ^ tail == 0 <==> body == tail;
    }
  }

  /** Every command frame carries its opcode, payload and length, and its checksum is right. */
  lemma BuildExtract(opcode: bv8, payload: Frame)
    requires |payload| <= 250
    ensures var frame := Build(opcode, payload);
            && frame.Some? && Extract(frame.value) == Carries(opcode, true)
            && frame.value[4..|frame.value| - 1] == payload && frame.value[1] == |frame.value| as bv8
            && frame.value[0] == 0x73 && frame.value[2] == 0x23
  {
    hide Xor;
    var body := Body(opcode, payload).value;
    var frame := body + [Xor(body)];
    assert frame[..|frame| - 1] == body;
  }

  lemma {:induction false} XorUpdate(s: Frame, i: nat, b: bv8)
    requires i < |s|
    ensures Xor(s[i := b]) == Xor(s) ^ s[i] ^ b
  {
    var t := s[i := b];
    var n := |s| - 1;
    if i == n {
      assert t[..n] == s[..n];
    } else {
      assert t[..n] == s[..n][i := b];
      XorUpdate(s[..n], i, b);
    }
  }

  /** Changing any single byte of a checksum-correct frame is always noticed. */
  lemma SingleByteChange(frame: Frame, i: nat, b: bv8, opcode: bv8, other: bv8)
    requires Extract(frame) == Carries(opcode, true) && i < |frame| && b != frame[i]
    ensures Extract(frame[i := b]) != Carries(other, true)
  {
    hide Xor, Extract;
    ExtractExact(frame, opcode);
    ExtractExact(frame[i := b], other);
    XorUpdate(frame, i, b);
    Differ(Xor(frame), frame[i], b);
  }

  lemma Differ(x: bv8, a: bv8, b: bv8)
    requires x == 0 && a != b
    ensures x ^ a ^ b != 0
  {}

  // ---------------------------------------------------------------------------------------------
  // History records

  datatype Record = Record(kind: bv8, sub: bv8, ts: int, value: int, flags: bv8)

  const RECORD: nat := 9

  function Big4(a: int, b: int, c: int, d: int): int { a * 0x1000000 + b * 0x10000 + c * 0x100 + d }

  function Big2(a: int, b: int): int {
    var n := a * 0x100 + b;
    if n < 0x8000 then n else n - 0x10000
  }

  /** struct.unpack(">I", …). */
  function Unsigned32(b: Frame): (n: int)
    requires |b| == 4
  {
    Big4(b[0] as int, b[1] as int, b[2] as int, b[3] as int)
  }

  /** struct.unpack(">h", …). */
  function Signed16(b: Frame): int
    requires |b| == 2
  {
    Big2(b[0] as int, b[1] as int)
  }

  function ReadRecord(rec: Frame): Record
    requires |rec| == RECORD
  {
    Record(rec[0], rec[1], Unsigned32(rec[2..6]), Signed16(rec[6..8]), rec[8])
  }

  function Records(body: Frame): seq<Record> {
    if |body| < RECORD then [] else [ReadRecord(body[..RECORD])] + Records(body[RECORD..])
  }

  predicate IsHistory(data: Frame) {
    |data| >= 5 && data[0] == START && data[2] == IDENT && data[3] == HISTORY
  }

  /** _parse_history. */
  method ParseHistory(data: Frame) returns (records: seq<Record>)
    ensures records == if IsHistory(data) then Records(data[4..|data| - 1]) else []
  {
    hide Unsigned32, Signed16;
    if |data| < 5 || data[0] != START || data[2] != IDENT || data[3] != HISTORY { return []; }
    var body := data[4..|data| - 1];
    records := [];
    var i := 0;
    while i + 9 <= |body|
      invariant 0 <= i <= |body|
      invariant Records(body) == records + Records(body[i..])
    {
      var rec := body[i..i + 9];
      assert body[i..][..RECORD] == rec && body[i..][RECORD..] == body[i + 9..];
      ghost var rest := Records(body[i + 9..]);
      assert records + ([ReadRecord(rec)] + rest) == records + [ReadRecord(rec)] + rest;
      records := records + [Record(rec[0], rec[1], Unsigned32(rec[2..6]), Signed16(rec[6..8]), rec[8])];
      i := i + 9;
    }
  }

  /** `rec` is the record as the battery lays it out: big-endian, the value in two's complement. */
  predicate Encodes(rec: Frame, r: Record) {
    && |rec| == 9 && rec[0] == r.kind && rec[1] == r.sub && rec[8] == r.flags
    && 0 <= r.ts < 0x1_0000_0000
    && rec[2] as int == r.ts / 0x1000000 && rec[3] as int == r.ts / 0x10000 % 0x100
    && rec[4] as int == r.ts / 0x100 % 0x100 && rec[5] as int == r.ts % 0x100
    && -0x8000 <= r.value < 0x8000
    && rec[6] as int == r.value / 0x100 % 0x100 && rec[7] as int == r.value % 0x100
  }

  lemma Halves(hi: int, lo: int)
    requires 0 <= hi < 0x10000 && 0 <= lo < 0x10000
    ensures var n := hi * 0x10000 + lo;
            n / 0x10000 == hi && n % 0x10000 == lo && n / 0x1000000 == hi / 0x100 && n / 0x100 % 0x100 == lo / 0x100
            && n % 0x100 == lo % 0x100
  {}

  lemma DigitsOf(a: int, b: int, c: int, d: int)
    requires 0 <= a < 0x100 && 0 <= b < 0x100 && 0 <= c < 0x100 && 0 <= d < 0x100
    ensures var n := Big4(a, b, c, d);
            && 0 <= n < 0x1_0000_0000
            && n / 0x1000000 == a && n / 0x10000 % 0x100 == b && n / 0x100 % 0x100 == c && n % 0x100 == d
  {
    Halves(a * 0x100 + b, c * 0x100 + d);
  }

  lemma DigitsMake(n: int)
    requires 0 <= n < 0x1_0000_0000
    ensures Big4(n / 0x1000000, n / 0x10000 % 0x100, n / 0x100 % 0x100, n % 0x100) == n
  {
    Halves(n / 0x10000, n % 0x10000);
  }

  lemma SignedDigitsOf(a: int, b: int)
    requires 0 <= a < 0x100 && 0 <= b < 0x100
    ensures var n := Big2(a, b); -0x8000 <= n < 0x8000 && n / 0x100 % 0x100 == a && n % 0x100 == b
  {}

  lemma SignedDigitsMake(n: int)
    requires -0x8000 <= n < 0x8000
    ensures Big2(n / 0x100 % 0x100, n % 0x100) == n
  {}

  /** Every 9-byte group encodes exactly one record: the one read from it. */
  lemma ReadExact(rec: Frame, r: Record)
    requires |rec| == RECORD
    ensures Encodes(rec, r) <==> ReadRecord(rec) == r
  {
    hide Big4, Big2;
    assert Unsigned32(rec[2..6]) == Big4(rec[2] as int, rec[3] as int, rec[4] as int, rec[5] as int);
    assert Signed16(rec[6..8]) == Big2(rec[6] as int, rec[7] as int);
    if Encodes(rec, r) {
      DigitsMake(r.ts);
      SignedDigitsMake(r.value);
    }
    if ReadRecord(rec) == r {
      DigitsOf(rec[2] as int, rec[3] as int, rec[4] as int, rec[5] as int);
      SignedDigitsOf(rec[6] as int, rec[7] as int);
    }
  }

  function Flat(groups: seq<Frame>): Frame {
    if groups == [] then [] else groups[0] + Flat(groups[1..])
  }

  lemma {:induction false} RecordsBack(groups: seq<Frame>, records: seq<Record>, rest: Frame)
    requires |rest| < 9 && |groups| == |records|
    requires forall i :: 0 <= i < |records| ==> Encodes(groups[i], records[i])
    ensures Records(Flat(groups) + rest) == records
  {
    hide ReadRecord, Encodes;
    var body := Flat(groups) + rest;
    if records == [] {
      assert body == rest;
    } else {
      assert |groups[0]| == RECORD by { EncodedLength(groups[0], records[0]); }
      ReadExact(groups[0], records[0]);
      RecordsBack(groups[1..], records[1..], rest);
      assert body[..RECORD] == groups[0];
      assert body[RECORD..] == Flat(groups[1..]) + rest;
    }
  }

  lemma EncodedLength(rec: Frame, r: Record)
    requires Encodes(rec, r)
    ensures |rec| == RECORD
  {}

  /** A history frame with any number of records and up to eight bytes over gives exactly the records. */
  lemma HistoryRoundTrip(groups: seq<Frame>, records: seq<Record>, rest: Frame, length: bv8, tail: bv8)
    requires |rest| < 9 && |groups| == |records|
    requires forall i :: 0 <= i < |records| ==> Encodes(groups[i], records[i])
    ensures var data := [0x73, length, 0x23, 0x30] + Flat(groups) + rest + [tail];
            IsHistory(data) && Records(data[4..|data| - 1]) == records
  {
    hide Records, Flat, Encodes;
    var data := [0x73, length, 0x23, 0x30] + Flat(groups) + rest + [tail];
    assert data[4..|data| - 1] == Flat(groups) + rest;
    RecordsBack(groups, records, rest);
  }

  /** Conversely, the records read account for every byte of the body but the last |body| % 9. */
  lemma {:induction false} NoByteMisread(body: Frame)
    ensures var records := Records(body);
            && |records| == |body| / 9
            && forall i :: 0 <= i < |records| ==> Encodes(body[i * 9..(i + 1) * 9], records[i])
  {
    hide ReadRecord, Encodes;
    if |body| >= RECORD {
      var rest := body[RECORD..];
      NoByteMisread(rest);
      ReadExact(body[..RECORD], ReadRecord(body[..RECORD]));
      var records := Records(body);
      assert records == [ReadRecord(body[..RECORD])] + Records(rest);
      forall i | 0 <= i < |records| ensures Encodes(body[i * RECORD..(i + 1) * RECORD], records[i]) {
        if i > 0 {
          assert rest[(i - 1) * RECORD..i * RECORD] == body[i * RECORD..(i + 1) * RECORD];
        }
      }
    }
  }
}
