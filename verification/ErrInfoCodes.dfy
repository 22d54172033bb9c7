/** emulator/solar_errinfo_codes.go: event code labels and the packed value of event code 75. */
module ErrInfoCodes {
  import opened Text

  /** `names` is the code dictionary; codes outside it are labelled by their number. */
  function CodeLabel(names: map<int, string>, code: int): string {
    if code in names then names[code] else "unknown_" + FormatInt(code)
  }

  const TWO_TO_THE_32: int := 0x1_0000_0000

  datatype Code75 = Code75(raw: int, scanTimeout: bool, reason: int, rssi: int, reasonPresent: bool)

  function Int16(n: int): int
    requires 0 <= n < 0x10000
  {
    if n < 0x8000 then n else n - 0x10000
  }

  /** The value is cut to 32 bits, low byte first the reason, the high half a signed RSSI. */
  function DecodeCode75(value: int): Code75 {
    var raw := value % TWO_TO_THE_32;
    if raw == 0 then Code75(0, true, 0, 0, false)
    else Code75(raw, false, raw % 0x100, Int16(raw / 0x10000 % 0x10000), true)
  }

  /** What the firmware packs: a reason byte, a byte nobody reads, a signed 16-bit RSSI; `wraps`
      stands for whatever the value carries above its 32 bits. */
  function Packed(reason: int, unread: int, rssi: int, wraps: int): int {
    reason + unread * 0x100 + rssi * 0x10000 + wraps * TWO_TO_THE_32
  }

  lemma ModuloAt(value: int, low: int, k: int)
    requires 0 <= low < TWO_TO_THE_32 && value == low + k * TWO_TO_THE_32
    ensures value % TWO_TO_THE_32 == low
  {}

  /** Every packing but the all-zero one is decoded back to its reason and RSSI. */
  lemma PackedDecodes(reason: int, unread: int, rssi: int, wraps: int)
    requires 0 <= reason < 0x100 && 0 <= unread < 0x100 && -0x8000 <= rssi < 0x8000
    ensures var d := DecodeCode75(Packed(reason, unread, rssi, wraps));
            var zero := reason == 0 && unread == 0 && rssi == 0;
            && (d.scanTimeout <==> zero) && (d.reasonPresent <==> !zero)
            && (!zero ==> d.reason == reason && d.rssi == rssi)
  {
    var high := if rssi < 0 then rssi + 0x10000 else rssi;
    var low := reason + unread * 0x100 + high * 0x10000;
    ModuloAt(Packed(reason, unread, rssi, wraps), low, if rssi < 0 then wraps - 1 else wraps);
    assert low % 0x100 == reason && low / 0x10000 == high;
  }

  /** Exactly one of the two readings applies, and the scan timeout is the value 0 modulo 2^32. */
  lemma OneReading(value: int)
    ensures DecodeCode75(value).scanTimeout != DecodeCode75(value).reasonPresent
    ensures DecodeCode75(value).scanTimeout <==> exists k :: value == k * TWO_TO_THE_32
  {
    if value % TWO_TO_THE_32 == 0 {
      assert value == (value / TWO_TO_THE_32) * TWO_TO_THE_32;
    }
    if k :| value == k * TWO_TO_THE_32 {
      ModuloAt(value, 0, k);
    }
  }

  /** Conversely, every value is a packing of the fields it is decoded into. */
  lemma ReadingRange(value: int)
    ensures var d := DecodeCode75(value); 0 <= d.reason < 0x100 && -0x8000 <= d.rssi < 0x8000
    ensures var d := DecodeCode75(value);
            exists unread, wraps :: 0 <= unread < 0x100 && value == Packed(d.reason, unread, d.rssi, wraps)
  {
    var d := DecodeCode75(value);
    var raw, wraps := value % TWO_TO_THE_32, value / TWO_TO_THE_32;
    WordParts(raw);
    var unread, high := raw / 0x100 % 0x100, raw / 0x10000;
    PackedAgain(value, raw, raw % 0x100, unread, high, wraps);
    assert d.reason == raw % 0x100 && d.rssi == Int16(high);
  }

  lemma WordParts(raw: int)
    requires 0 <= raw < TWO_TO_THE_32
    ensures 0 <= raw / 0x10000 < 0x10000 && raw / 0x10000 % 0x10000 == raw / 0x10000
    ensures raw == raw % 0x100 + raw / 0x100 % 0x100 * 0x100 + raw / 0x10000 * 0x10000
  {
    var low := raw % 0x10000;
    assert raw == raw / 0x10000 * 0x10000 + low;
    assert low % 0x100 == raw % 0x100 && low / 0x100 == raw / 0x100 % 0x100;
  }

  lemma PackedAgain(value: int, raw: int, reason: int, unread: int, high: int, wraps: int)
    requires value == raw + wraps * TWO_TO_THE_32 && raw == reason + unread * 0x100 + high * 0x10000
    requires 0 <= high < 0x10000
    ensures value == Packed(reason, unread, Int16(high), if high < 0x8000 then wraps else wraps + 1)
  {}
}
