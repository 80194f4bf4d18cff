/** Upper-case hexadecimal text of a byte string, as the VoIP token
    `reduce("", { $0 + String(format: "%02X", $1) })` builds it. */
module Hex {

  import opened Values

  newtype byte = x: int | 0 <= x < 256

  predicate IsUpperHexDigit(c: char) { '0' <= c <= '9' || 'A' <= c <= 'F' }

  function HexDigit(d: int): (c: char)
    requires 0 <= d < 16
    ensures IsUpperHexDigit(c)
  {
    if d < 10 then ('0' as int + d) as char else ('A' as int + d - 10) as char
  }

  function HexDigitValue(c: char): (d: int)
    requires IsUpperHexDigit(c)
    ensures 0 <= d < 16 && HexDigit(d) == c
    ensures forall e :: 0 <= e < 16 && HexDigit(e) == c ==> e == d
  {
    if c <= '9' then c as int - '0' as int else c as int - 'A' as int + 10
  }

  /** `String(format: "%02X", b)`: two digits, high nibble first. */
  function ByteHex(b: byte): (s: string)
    ensures |s| == 2 && IsUpperHexDigit(s[0]) && IsUpperHexDigit(s[1])
    ensures HexDigitValue(s[0]) * 16 + HexDigitValue(s[1]) == b as int
  {
    [HexDigit(b as int / 16), HexDigit(b as int % 16)]
  }

  /** The fold as written: the accumulator grows left to right, so the
      result is the accumulator followed by the byte texts in order. */
  function HexFold(acc: string, bytes: seq<byte>): (r: string)
    ensures r == acc + Concat(bytes)
    decreases |bytes|
  {
    if |bytes| == 0 then acc else HexFold(acc + ByteHex(bytes[0]), bytes[1..])
  }

  /** The device token text: the byte texts concatenated in order. */
  function EncodeToken(bytes: seq<byte>): (r: string)
    ensures r == Concat(bytes)
  {
    assert "" + Concat(bytes) == Concat(bytes);
    HexFold("", bytes)
  }

  /** Reference definition: the byte texts concatenated in order. */
  function Concat(bytes: seq<byte>): string
    decreases |bytes|
  {
    if |bytes| == 0 then "" else ByteHex(bytes[0]) + Concat(bytes[1..])
  }

  /** Reading two upper-case hex digits back; `None` for anything else. */
  function Decode(s: string): (r: Option<seq<byte>>)
    decreases |s|
  {
    if |s| == 0 then Some([])
    else if |s| == 1 || !IsUpperHexDigit(s[0]) || !IsUpperHexDigit(s[1]) then None
    else
      var rest := Decode(s[2..]);
      if rest.None? then None
      else Some([(HexDigitValue(s[0]) * 16 + HexDigitValue(s[1])) as byte] + rest.value)
  }

  lemma {:induction false} ConcatAt(bytes: seq<byte>, i: int)
    requires 0 <= i < |bytes|
    ensures |Concat(bytes)| == 2 * |bytes|
    ensures Concat(bytes)[2 * i] == HexDigit(bytes[i] as int / 16)
    ensures Concat(bytes)[2 * i + 1] == HexDigit(bytes[i] as int % 16)
    decreases |bytes|
  {
    if i > 0 {
      ConcatAt(bytes[1..], i - 1);
    } else if |bytes| > 1 {
      ConcatAt(bytes[1..], 0);
    }
  }

  /** The token text has two upper-case hex digits per byte, in byte order:
      digit `2i` is the high nibble of byte `i` and digit `2i+1` its low nibble. */
  lemma EncodeTokenSpec(bytes: seq<byte>)
    ensures |EncodeToken(bytes)| == 2 * |bytes|
    ensures forall i :: 0 <= i < |bytes| ==>
      EncodeToken(bytes)[2 * i] == HexDigit(bytes[i] as int / 16) &&
      EncodeToken(bytes)[2 * i + 1] == HexDigit(bytes[i] as int % 16)
    ensures forall j :: 0 <= j < |EncodeToken(bytes)| ==> IsUpperHexDigit(EncodeToken(bytes)[j])
  {
    if |bytes| > 0 {
      ConcatAt(bytes, 0);
    }
    forall i | 0 <= i < |bytes|
      ensures EncodeToken(bytes)[2 * i] == HexDigit(bytes[i] as int / 16)
      ensures EncodeToken(bytes)[2 * i + 1] == HexDigit(bytes[i] as int % 16)
    {
      ConcatAt(bytes, i);
    }
    forall j | 0 <= j < |EncodeToken(bytes)| ensures IsUpperHexDigit(EncodeToken(bytes)[j]) {
      ConcatAt(bytes, j / 2);
    }
  }

  lemma {:induction false} DecodeConcat(bytes: seq<byte>)
    ensures Decode(Concat(bytes)) == Some(bytes)
    decreases |bytes|
  {
    if |bytes| > 0 {
      var s := Concat(bytes);
      DecodeConcat(bytes[1..]);
      assert s[2..] == Concat(bytes[1..]);
      var b := bytes[0] as int;
      assert HexDigitValue(s[0]) == b / 16 && HexDigitValue(s[1]) == b % 16;
      assert (b / 16) * 16 + b % 16 == b;
      assert [bytes[0]] + bytes[1..] == bytes;
    }
  }

  /** A text that decodes has two digits per byte. */
  lemma {:induction false} DecodeLength(s: string)
    ensures Decode(s).Some? ==> 2 * |Decode(s).value| == |s|
    decreases |s|
  {
    if |s| >= 2 {
      DecodeLength(s[2..]);
    }
  }

  /** Round trip: the token text determines the token bytes. */
  lemma DecodeEncodeToken(bytes: seq<byte>)
    ensures Decode(EncodeToken(bytes)) == Some(bytes)
  {
    DecodeConcat(bytes);
  }

  /** Distinct tokens give distinct texts. */
  lemma EncodeTokenInjective(a: seq<byte>, b: seq<byte>)
    requires EncodeToken(a) == EncodeToken(b)
    ensures a == b
  {
    DecodeEncodeToken(a);
    DecodeEncodeToken(b);
  }
}
