/**
 * GetMD5Text: the sixteen bytes of a gradient-name digest spelled as
 * thirty-two upper-case hexadecimal digits in a static character buffer.
 */
module Hex {
  import opened Common

  type Byte = x: int | 0 <= x < 256

  const HEX_DIGITS: string := "0123456789ABCDEF"

  /** The digit for a nibble, `a[n & 15]`. */
  function Digit(n: int): (c: char)
    requires 0 <= n < 16
    ensures '0' <= c <= '9' || 'A' <= c <= 'F'
  {
    HEX_DIGITS[n]
  }

  /** The value of an upper-case hexadecimal digit, or -1 for any other character. */
  function DigitValue(c: char): (n: int)
    ensures -1 <= n < 16
    ensures n >= 0 ==> Digit(n) == c
  {
    if '0' <= c <= '9' then c as int - '0' as int
    else if 'A' <= c <= 'F' then c as int - 'A' as int + 10
    else -1
  }

  lemma DigitValueOfDigit(n: int)
    requires 0 <= n < 16
    ensures DigitValue(Digit(n)) == n
  {
  }

  /** Two upper-case digits per byte, the high nibble first. */
  function HexText(bytes: seq<Byte>): (r: string)
    ensures |r| == 2 * |bytes|
  {
    if bytes == [] then []
    else [Digit(bytes[0] / 16), Digit(bytes[0] % 16)] + HexText(bytes[1..])
  }

  lemma {:induction false} HexTextAt(bytes: seq<Byte>, i: int)
    requires 0 <= i < |bytes|
    ensures HexText(bytes)[2 * i] == Digit(bytes[i] / 16)
    ensures HexText(bytes)[2 * i + 1] == Digit(bytes[i] % 16)
  {
    if i > 0 {
      HexTextAt(bytes[1..], i - 1);
    }
  }

  /** Reads pairs of digits back into bytes; a non-digit or an odd length gives None. */
  function ParseHex(s: string): Option<seq<Byte>> {
    if s == [] then Some([])
    else if |s| == 1 then None
    else
      var hi := DigitValue(s[0]);
      var lo := DigitValue(s[1]);
      if hi < 0 || lo < 0 then None
      else match ParseHex(s[2..])
        case None => None
        case Some(rest) => Some([hi * 16 + lo] + rest)
  }

  /** The text reads back as the digest it was made from, so distinct digests never share a text. */
  lemma {:induction false} ParseHexText(bytes: seq<Byte>)
    ensures ParseHex(HexText(bytes)) == Some(bytes)
  {
    if bytes != [] {
      var t := HexText(bytes);
      var b := bytes[0];
      DigitValueOfDigit(b / 16);
      DigitValueOfDigit(b % 16);
      assert t[2..] == HexText(bytes[1..]);
      ParseHexText(bytes[1..]);
      assert bytes == [b] + bytes[1..];
    }
  }

  lemma HexTextInjective(a: seq<Byte>, b: seq<Byte>)
    requires HexText(a) == HexText(b)
    ensures a == b
  {
    ParseHexText(a);
    ParseHexText(b);
  }

  /**
   * GetMD5Text with a static buffer of `size` characters (zero-initialised,
   * as static storage is): the loop writes txt[2i] and txt[2i+1] for every
   * byte, then the terminator goes to txt[32].  A write past the end of the
   * buffer is undefined behaviour and gives None.
   */
  method MD5Text(md5: seq<Byte>, size: nat) returns (txt: Option<string>)
    requires |md5| == 16
    ensures txt.Some? <==> size >= 33
    ensures txt.Some? ==> |txt.value| == size && txt.value[..32] == HexText(md5) && txt.value[32] == '\0'
  {
    var buf := seq(size, _ => '\0');
    var i := 0;
    while i < 16
      invariant 0 <= i <= 16 && |buf| == size && 2 * i <= size
      invariant forall k :: 0 <= k < 2 * i ==> buf[k] == HexText(md5)[k]
    {
      if 2 * i + 1 >= size {
        return None;
      }
      HexTextAt(md5, i);
      buf := buf[2 * i := Digit(md5[i] / 16)][2 * i + 1 := Digit(md5[i] % 16)];
      i := i + 1;
    }
    if size <= 32 {
      return None;
    }
    buf := buf[32 := '\0'];
    return Some(buf);
  }

  /** The source's 32-character buffer: the terminator store txt[32] is always out of bounds. */
  method GetMD5TextAsWritten(md5: seq<Byte>) returns (txt: Option<string>)
    requires |md5| == 16
    ensures txt == None
  {
    txt := MD5Text(md5, 32);
  }

  /** With room for the terminator the result is the digest's hex text, NUL-terminated. */
  method GetMD5Text(md5: seq<Byte>) returns (txt: string)
    requires |md5| == 16
    ensures txt == HexText(md5) + ['\0']
    ensures ParseHex(txt[..32]) == Some(md5)
  {
    var r := MD5Text(md5, 33);
    txt := r.value;
    assert txt == txt[..32] + [txt[32]];
    ParseHexText(md5);
  }
}
