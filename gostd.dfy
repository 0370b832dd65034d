/**
 * The few operations of Go's standard library that the driver layer relies on,
 * written out so that their edge cases are explicit: strconv.Itoa, fmt's %X verb
 * on a byte, encoding/hex decoding (Base16 of RFC 4648, section 8), Go's
 * truncating integer division and the zero padding of time.Format.
 */
module GoStd {
  import opened Wrappers

  type byte = x: int | 0 <= x < 256

  const UpperHexDigits := "0123456789ABCDEF"

  predicate IsUpperHexDigit(c: char) {
    '0' <= c <= '9' || 'A' <= c <= 'F'
  }

  /** The characters encoding/hex accepts: digits and either case of a-f. */
  predicate IsHexDigit(c: char) {
    IsUpperHexDigit(c) || 'a' <= c <= 'f'
  }

  function HexDigit(d: int): (c: char)
    requires 0 <= d < 16
    ensures IsUpperHexDigit(c)
  {
    UpperHexDigits[d]
  }

  function HexValue(c: char): (v: int)
    requires IsHexDigit(c)
    ensures 0 <= v < 16
  {
    if '0' <= c <= '9' then c as int - '0' as int
    else if 'A' <= c <= 'F' then c as int - 'A' as int + 10
    else c as int - 'a' as int + 10
  }

  lemma HexValueOfDigit(d: int)
    requires 0 <= d < 16
    ensures HexValue(HexDigit(d)) == d
  {
  }

  /** fmt.Sprintf("%X", b) for a byte: upper case, no zero padding. */
  function FormatX(b: byte): (s: string)
    ensures |s| == (if b < 16 then 1 else 2)
    ensures forall i :: 0 <= i < |s| ==> IsUpperHexDigit(s[i])
  {
    if b < 16 then [HexDigit(b)] else [HexDigit(b / 16), HexDigit(b % 16)]
  }

  /** hex.DecodeString: pairs of hex digits, either case; odd length or a bad character fails. */
  function HexDecode(s: string): (r: Option<seq<byte>>)
    ensures r.Some? ==> 2 * |r.value| == |s|
  {
    if |s| == 0 then Some([])
    else if |s| == 1 || !IsHexDigit(s[0]) || !IsHexDigit(s[1]) then None
    else
      match HexDecode(s[2..])
      case None => None
      case Some(rest) => Some([HexValue(s[0]) * 16 + HexValue(s[1])] + rest)
  }

  /** Decoding a string that starts with two hex digits: their byte, then the rest decoded. */
  lemma HexDecodeCons(c0: char, c1: char, rest: string)
    requires IsHexDigit(c0) && IsHexDigit(c1)
    ensures HexDecode([c0, c1] + rest) ==
      if HexDecode(rest).None? then None else Some([HexValue(c0) * 16 + HexValue(c1)] + HexDecode(rest).value)
  {
    assert ([c0, c1] + rest)[2..] == rest;
  }

  /** The two %X digits of a byte from 0x10 up decode back to that byte. */
  lemma HexPair(b: byte)
    requires b >= 16
    ensures HexValue(HexDigit(b / 16)) * 16 + HexValue(HexDigit(b % 16)) == b
  {
    HexValueOfDigit(b / 16);
    HexValueOfDigit(b % 16);
  }

  function DecimalDigit(d: int): (c: char)
    requires 0 <= d < 10
    ensures '0' <= c <= '9'
  {
    "0123456789"[d]
  }

  /** The decimal digits of a natural number, without sign or leading zeros. */
  function Decimal(n: nat): (s: string)
    ensures 1 <= |s|
    ensures forall i :: 0 <= i < |s| ==> '0' <= s[i] <= '9'
    ensures n == 0 <==> s == "0"
    ensures n < 10 <==> |s| == 1
  {
    if n < 10 then [DecimalDigit(n)] else Decimal(n / 10) + [DecimalDigit(n % 10)]
  }

  /** strconv.Itoa: a minus sign for negative numbers, nothing for the others. */
  function Itoa(n: int): (s: string)
    ensures n >= 0 ==> s == Decimal(n)
    ensures n < 0 ==> s == "-" + Decimal(-n)
  {
    if n < 0 then "-" + Decimal(-n) else Decimal(n)
  }

  /** Go's integer division, which truncates toward zero (Dafny's `/` is Euclidean). */
  function Quo(a: int, b: int): (q: int)
    requires b > 0
    ensures a >= 0 ==> q == a / b
    ensures a < 0 ==> q == -((-a) / b)
  {
    if a >= 0 then a / b else -((-a) / b)
  }

  /** time.Format's two-digit fields: at least two digits, zero padded. */
  function Pad2(n: nat): (s: string)
    ensures |s| >= 2
    ensures n < 100 ==> |s| == 2
  {
    if n < 10 then "0" + Decimal(n) else Decimal(n)
  }
}
