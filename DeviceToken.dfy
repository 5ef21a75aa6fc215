/**
 * The device-token conversion of ZJRemoteNotification.swift (line 131):
 * every byte of the token is formatted with `%02.2hhx` and the pieces are
 * joined. This is the base16 encoding of section 8 of RFC 4648 with the
 * lowercase digits `0-9a-f`. `Unhex` is the matching decoder, used only
 * to state that the encoding loses nothing.
 */
module DeviceToken {

  import opened Wrappers

  newtype byte = x: int | 0 <= x < 256

  predicate IsLowerHexDigit(c: char)
  {
    '0' <= c <= '9' || 'a' <= c <= 'f'
  }

  /** The value of one lowercase hex digit, or None for any other character. */
  function DigitValue(c: char): (r: Option<int>)
    ensures r.Some? <==> IsLowerHexDigit(c)
    ensures r.Some? ==> 0 <= r.value < 16
  {
    if '0' <= c <= '9' then Some(c as int - '0' as int)
    else if 'a' <= c <= 'f' then Some(c as int - 'a' as int + 10)
    else None
  }

  /** The lowercase hex digit for a nibble. */
  function HexDigit(n: int): (c: char)
    requires 0 <= n < 16
    ensures IsLowerHexDigit(c)
    ensures DigitValue(c) == Some(n)
  {
    if n < 10 then ('0' as int + n) as char else ('a' as int + (n - 10)) as char
  }

  /** `String(format: "%02.2hhx", b)`: two digits, high nibble first, zero-padded. */
  function FormatByte(b: byte): (r: string)
    ensures |r| == 2 && IsLowerHexDigit(r[0]) && IsLowerHexDigit(r[1])
    ensures ParseByte(r[0], r[1]) == Some(b)
  {
    [HexDigit(b as int / 16), HexDigit(b as int % 16)]
  }

  /** Reads back one two-digit pair written by FormatByte. */
  function ParseByte(hi: char, lo: char): (r: Option<byte>)
    ensures r.Some? <==> IsLowerHexDigit(hi) && IsLowerHexDigit(lo)
  {
    match (DigitValue(hi), DigitValue(lo))
    case (Some(h), Some(l)) => Some((16 * h + l) as byte)
    case _ => None
  }

  /** `deviceToken.map { String(format: "%02.2hhx", $0) }.joined()` */
  function Hex(token: seq<byte>): (r: string)
    ensures |r| == 2 * |token|
    ensures forall c | c in r :: IsLowerHexDigit(c)
  {
    if token == [] then [] else FormatByte(token[0]) + Hex(token[1..])
  }

  /** Decoder for Hex: None unless the string is an even number of lowercase hex digits. */
  function Unhex(s: string): (r: Option<seq<byte>>)
    ensures r.Some? ==> 2 * |r.value| == |s|
  {
    if s == [] then Some([])
    else if |s| == 1 then None
    else
      match ParseByte(s[0], s[1])
      case None => None
      case Some(b) =>
        match Unhex(s[2..])
        case None => None
        case Some(rest) => Some([b] + rest)
  }

  /** ParseByte and FormatByte are inverse on the pairs ParseByte accepts. */
  lemma FormatParsedByte(hi: char, lo: char)
    requires ParseByte(hi, lo).Some?
    ensures FormatByte(ParseByte(hi, lo).value) == [hi, lo]
  {
  }

  /** The hex pair at position i of the string encodes byte i of the token. */
  lemma {:induction false} HexPairAt(token: seq<byte>, i: nat)
    requires i < |token|
    ensures Hex(token)[2 * i .. 2 * i + 2] == FormatByte(token[i])
  {
    if i > 0 {
      HexPairAt(token[1..], i - 1);
      assert Hex(token) == FormatByte(token[0]) + Hex(token[1..]);
    }
  }

  /** Decoding the device-token string gives back the original bytes. */
  lemma {:induction false} UnhexHex(token: seq<byte>)
    ensures Unhex(Hex(token)) == Some(token)
  {
    if token != [] {
      var s := Hex(token);
      UnhexHex(token[1..]);
      assert s[2..] == Hex(token[1..]);
      assert [token[0]] + token[1..] == token;
    }
  }

  /** Every string the decoder accepts is the encoding of what it decodes to. */
  lemma {:induction false} HexUnhex(s: string)
    requires Unhex(s).Some?
    ensures Hex(Unhex(s).value) == s
  {
    if s != [] {
      var b := ParseByte(s[0], s[1]).value;
      HexUnhex(s[2..]);
      FormatParsedByte(s[0], s[1]);
      var bytes := Unhex(s).value;
      assert bytes[0] == b && bytes[1..] == Unhex(s[2..]).value;
      assert s == [s[0], s[1]] + s[2..];
    }
  }

  /** The decoder accepts exactly the strings of even length made of lowercase hex digits. */
  lemma {:induction false} UnhexDefined(s: string)
    ensures Unhex(s).Some? <==> |s| % 2 == 0 && forall c | c in s :: IsLowerHexDigit(c)
  {
    if |s| >= 2 {
      UnhexDefined(s[2..]);
      assert s == [s[0], s[1]] + s[2..];
    } else if |s| == 1 {
      assert s[0] in s;
    }
  }

  /** Distinct tokens give distinct strings. */
  lemma HexInjective(a: seq<byte>, b: seq<byte>)
    requires Hex(a) == Hex(b)
    ensures a == b
  {
    UnhexHex(a);
    UnhexHex(b);
  }

}
