/** UTF-8 as the canonical encoding uses it (`str.encode('utf-8')`), with the decoder that
    undoes it.  A Dafny `char` is a Unicode scalar value, which is exactly the kind of
    character Python can encode; lone surrogates make Python raise and have no counterpart. */
module Utf8 {
  import opened Wrappers

  newtype Byte = b: int | 0 <= b < 256

  /** A continuation byte carries six bits. */
  function Tail(bits: nat): (b: Byte)
    requires bits < 64
  {
    (128 + bits) as Byte
  }

  function EncodeChar(c: char): (bytes: seq<Byte>)
    ensures 1 <= |bytes| <= 4
  {
    var n := c as int;
    if n < 0x80 then [n as Byte]
    else if n < 0x800 then [(0xC0 + n / 64) as Byte, Tail(n % 64)]
    else if n < 0x10000 then [(0xE0 + n / 4096) as Byte, Tail(n / 64 % 64), Tail(n % 64)]
    else [(0xF0 + n / 262144) as Byte, Tail(n / 4096 % 64), Tail(n / 64 % 64), Tail(n % 64)]
  }

  function Encode(text: string): (bytes: seq<Byte>)
  {
    if text == "" then [] else EncodeChar(text[0]) + Encode(text[1..])
  }

  /** The scalar value with this number, if there is one. */
  function Scalar(n: int): Option<char> {
    if 0 <= n < 0xD800 || 0xE000 <= n < 0x11_0000 then Some(n as char) else None
  }

  /** How many bytes the character starting with this byte takes. */
  function Width(first: Byte): (n: nat)
    ensures 1 <= n <= 4
  {
    if first < 0xC0 then 1 else if first < 0xE0 then 2 else if first < 0xF0 then 3 else 4
  }

  function DecodeChar(bytes: seq<Byte>): Option<char>
    requires bytes != []
  {
    var w := Width(bytes[0]);
    if |bytes| < w then None
    else
      var b := bytes[0] as int;
      if w == 1 then Scalar(b)
      else if w == 2 then Scalar((b - 0xC0) * 64 + (bytes[1] as int - 128))
      else if w == 3 then Scalar((b - 0xE0) * 4096 + (bytes[1] as int - 128) * 64 + (bytes[2] as int - 128))
      else Scalar((b - 0xF0) * 262144 + (bytes[1] as int - 128) * 4096 + (bytes[2] as int - 128) * 64
                  + (bytes[3] as int - 128))
  }

  function Decode(bytes: seq<Byte>): Option<string>
  {
    if bytes == [] then Some("")
    else
      var w := Width(bytes[0]);
      match DecodeChar(bytes)
      case None => None
      case Some(c) =>
        if |bytes| < w then None
        else
          match Decode(bytes[w..])
          case None => None
          case Some(rest) => Some([c] + rest)
  }

  lemma DecodeEncodedChar(c: char, rest: seq<Byte>)
    ensures Width((EncodeChar(c) + rest)[0]) == |EncodeChar(c)|
    ensures DecodeChar(EncodeChar(c) + rest) == Some(c)
  {
    var n := c as int;
    assert n == n / 64 * 64 + n % 64;
    assert n / 64 == n / 4096 * 64 + n / 64 % 64;
    assert n / 4096 == n / 262144 * 64 + n / 4096 % 64;
    var bytes := EncodeChar(c) + rest;
    if n < 0x80 {
      assert bytes[0] == n as Byte;
    } else if n < 0x800 {
      assert bytes[0] == (0xC0 + n / 64) as Byte && bytes[1] == Tail(n % 64);
    } else if n < 0x10000 {
      assert bytes[0] == (0xE0 + n / 4096) as Byte && bytes[1] == Tail(n / 64 % 64) && bytes[2] == Tail(n % 64);
    } else {
      assert bytes[0] == (0xF0 + n / 262144) as Byte && bytes[1] == Tail(n / 4096 % 64);
      assert bytes[2] == Tail(n / 64 % 64) && bytes[3] == Tail(n % 64);
    }
  }

  /** Every text is recovered from its bytes. */
  lemma {:induction false} RoundTrip(text: string)
    ensures Decode(Encode(text)) == Some(text)
  {
    if text == "" {
    } else {
      var rest := Encode(text[1..]);
      DecodeEncodedChar(text[0], rest);
      RoundTrip(text[1..]);
      var w := |EncodeChar(text[0])|;
      assert (EncodeChar(text[0]) + rest)[w..] == rest;
      assert [text[0]] + text[1..] == text;
    }
  }
}
