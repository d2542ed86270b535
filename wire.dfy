// The outbound side of a session: the envelope handed to the websocket and
// the correlation id stamped on it (Client.send, Client._send, Client.rndId).
module Wire {

  /** A JSON argument of an envelope; only the shapes the session core builds itself. */
  datatype Value = Str(s: string) | Int(i: int)

  /** The object _send serialises: {"name": …, "type": …, "id": …, "args": […]}. */
  datatype Envelope = Envelope(name: string, kind: string, id: string, args: seq<Value>)

  /** The type tag of every session-originated push. */
  const EVENT: string := "ev"

  const TWO_31: int := 0x8000_0000
  const TWO_32: int := 0x1_0000_0000

  /** The range of random.randint(-2147483648, 2147483647). */
  predicate IsInt32(n: int) {
    -TWO_31 <= n < TWO_31
  }

  /** Reads a 32-bit pattern back as a signed value (two's complement). */
  function ToSigned32(u: int): int {
    if u < TWO_31 then u else u - TWO_32
  }

  predicate IsHexChar(c: char) {
    '0' <= c <= '9' || 'A' <= c <= 'F'
  }

  predicate IsHexString(s: string) {
    forall i :: 0 <= i < |s| ==> IsHexChar(s[i])
  }

  function HexValue(c: char): (d: nat)
    requires IsHexChar(c)
    ensures d < 16
  {
    if c <= '9' then c as int - 48 else c as int - 55
  }

  /** The upper-case digit for d; HexValue reads it back. */
  function HexDigit(d: nat): (c: char)
    requires d < 16
    ensures IsHexChar(c) && HexValue(c) == d
  {
    if d < 10 then (48 + d) as char else (55 + d) as char
  }

  function Pow16(k: nat): nat {
    if k == 0 then 1 else 16 * Pow16(k - 1)
  }

  /** The shortest upper-case hexadecimal rendering of n ("0" for zero). */
  function Hex(n: nat): (s: string)
    ensures 1 <= |s| && IsHexString(s)
    decreases n
  {
    if n < 16 then [HexDigit(n)] else Hex(n / 16) + [HexDigit(n % 16)]
  }

  /** The value of a string of hex digits, most significant first. */
  function ParseHex(s: string): nat
    requires IsHexString(s)
  {
    if s == [] then 0 else ParseHex(s[..|s| - 1]) * 16 + HexValue(s[|s| - 1])
  }

  /** Left-pads s with '0' to width columns, as the 0 flag of a %-conversion does; never truncates. */
  function ZeroPad(s: string, width: nat): string {
    if |s| < width then seq(width - |s|, _ => '0') + s else s
  }

  /** Python's "%08X" % n: a '-' for a negative n, then the hex digits of |n|,
      zero-padded so that sign and digits together fill 8 columns. */
  function FormatHex08(n: int): string {
    if n < 0 then "-" + ZeroPad(Hex(-n), 7) else ZeroPad(Hex(n), 8)
  }

  /** rndId as written: "%08X" of the signed 32-bit draw. */
  function RndIdAsWritten(draw: int): (id: string)
    requires IsInt32(draw)
    ensures 8 <= |id|
    ensures id[0] == '-' <==> draw < 0
  {
    FormatHex08(draw)
  }

  /** rndId as intended: the draw's 32-bit pattern as 8 upper-case hex digits. */
  function RndId(draw: int): (id: string)
    requires IsInt32(draw)
    ensures |id| == 8 && IsHexString(id)
  {
    PaddedHex(draw % TWO_32, 8);
    FormatHex08(draw % TWO_32)
  }

  lemma {:induction false} HexRoundTrip(n: nat)
    ensures ParseHex(Hex(n)) == n
    decreases n
  {
    if n >= 16 {
      var s := Hex(n);
      assert s[..|s| - 1] == Hex(n / 16);
      HexRoundTrip(n / 16);
    }
  }

  lemma {:induction false} HexLength(n: nat, k: nat)
    requires 1 <= k && n < Pow16(k)
    ensures |Hex(n)| <= k
    decreases n
  {
    if n >= 16 {
      assert k >= 2;
      HexLength(n / 16, k - 1);
    }
  }

  lemma {:induction false} ParseHexZeros(z: string)
    requires forall i :: 0 <= i < |z| ==> z[i] == '0'
    ensures IsHexString(z) && ParseHex(z) == 0
    decreases |z|
  {
    if z != [] {
      ParseHexZeros(z[..|z| - 1]);
    }
  }

  /** Leading zeros do not change the value of a hex string. */
  lemma {:induction false} ParseHexLeadingZeros(z: string, s: string)
    requires forall i :: 0 <= i < |z| ==> z[i] == '0'
    requires IsHexString(s)
    ensures IsHexString(z + s) && ParseHex(z + s) == ParseHex(s)
    decreases |s|
  {
    ParseHexZeros(z);
    if s != [] {
      var t := z + s;
      assert t[..|t| - 1] == z + s[..|s| - 1];
      ParseHexLeadingZeros(z, s[..|s| - 1]);
    } else {
      assert z + s == z;
    }
  }

  /** Zero-padding keeps a hex string hex and keeps its value. */
  lemma ZeroPadValue(s: string, width: nat)
    requires IsHexString(s)
    ensures IsHexString(ZeroPad(s, width)) && ParseHex(ZeroPad(s, width)) == ParseHex(s)
  {
    if |s| < width {
      ParseHexLeadingZeros(seq(width - |s|, _ => '0'), s);
    }
  }

  /** A value below 16^width renders, zero-padded, in exactly width hex digits that read back as the value. */
  lemma PaddedHex(n: nat, width: nat)
    requires 1 <= width && n < Pow16(width)
    ensures |ZeroPad(Hex(n), width)| == width
    ensures IsHexString(ZeroPad(Hex(n), width))
    ensures ParseHex(ZeroPad(Hex(n), width)) == n
  {
    HexLength(n, width);
    HexRoundTrip(n);
    ZeroPadValue(Hex(n), width);
  }

  /** The intended rndId is an inverse-able encoding: the draw is recovered from its id. */
  lemma RndIdRoundTrip(draw: int)
    requires IsInt32(draw)
    ensures ToSigned32(ParseHex(RndId(draw))) == draw
  {
    assert Pow16(8) == TWO_32;
    PaddedHex(draw % TWO_32, 8);
  }

  /** Distinct draws give distinct ids. */
  lemma RndIdInjective(a: int, b: int)
    requires IsInt32(a) && IsInt32(b)
    ensures RndId(a) == RndId(b) ==> a == b
  {
    RndIdRoundTrip(a);
    RndIdRoundTrip(b);
  }

  /** On a non-negative draw the id as written is 8 zero-padded upper-case hex digits
      holding the draw, the same id as the intended one. */
  lemma RndIdAsWrittenNonNegative(draw: int)
    requires 0 <= draw < TWO_31
    ensures |RndIdAsWritten(draw)| == 8 && IsHexString(RndIdAsWritten(draw))
    ensures ParseHex(RndIdAsWritten(draw)) == draw
    ensures RndIdAsWritten(draw) == RndId(draw)
  {
    assert Pow16(8) == TWO_32;
    PaddedHex(draw, 8);
  }

  /** On a negative draw the id as written is a '-' followed by hex digits holding the
      magnitude, so it is not a hex token. */
  lemma RndIdAsWrittenNegative(draw: int)
    requires IsInt32(draw) && draw < 0
    ensures RndIdAsWritten(draw)[0] == '-'
    ensures !IsHexString(RndIdAsWritten(draw))
    ensures IsHexString(RndIdAsWritten(draw)[1..]) && ParseHex(RndIdAsWritten(draw)[1..]) == -draw
  {
    var h := Hex(-draw);
    var id := RndIdAsWritten(draw);
    assert id == ['-'] + ZeroPad(h, 7);
    assert !IsHexChar(id[0]);
    assert id[1..] == ZeroPad(h, 7);
    HexRoundTrip(-draw);
    ZeroPadValue(h, 7);
  }

  /** The smallest draw renders in 9 characters: "-80000000". */
  lemma RndIdAsWrittenMinimum()
    ensures RndIdAsWritten(-TWO_31) == "-80000000"
    ensures |RndIdAsWritten(-TWO_31)| == 9
  {
    assert Hex(8) == "8";
    assert Hex(0x80) == "80";
    assert Hex(0x800) == "800";
    assert Hex(0x8000) == "8000";
    assert Hex(0x8_0000) == "80000";
    assert Hex(0x80_0000) == "800000";
    assert Hex(0x800_0000) == "8000000";
    assert Hex(0x8000_0000) == "80000000";
  }
}
